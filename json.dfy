/**
 * The JSON error body: encoding/json's Marshal applied to the two-key map
 * SendError builds, and a decoder for that same shape that serves as its
 * reference.
 */
module Json {
  import opened Wrappers

  /** An error reply's human-readable message and machine code. */
  datatype JsonError = JsonError(msg: string, code: string)

  /**
   * A character that json.Marshal copies into a string literal unchanged:
   * not a control character, not `"` or `\`, not one of the HTML-escaped
   * `<`, `>`, `&`, and not U+2028 or U+2029.
   */
  predicate PlainChar(c: char)
  {
    ' ' <= c && c != '"' && c != '\\' && c != '<' && c != '>' && c != '&'
    && c != '\U{2028}' && c != '\U{2029}'
  }

  predicate Plain(s: string)
  {
    forall i :: 0 <= i < |s| ==> PlainChar(s[i])
  }

  predicate PlainError(e: JsonError)
  {
    Plain(e.msg) && Plain(e.code)
  }

  /** The fixed text of the encoded object around its two values. */
  const CodeOpen := "{\"code\":\""
  const MsgOpen := ",\"msg\":\""
  const Quote := "\""
  const Close := "}"

  /**
   * json.Marshal of the map {"msg": e.msg, "code": e.code}. A Go map is
   * encoded with its keys in sorted order, so "code" comes first.
   */
  function Marshal(e: JsonError): (data: string)
    requires PlainError(e)
    ensures |data| == |CodeOpen| + |e.code| + |Quote + MsgOpen| + |e.msg| + |Quote + Close|
    ensures CodeOpen <= data
  {
    CodeOpen + e.code + Quote + MsgOpen + e.msg + Quote + Close
  }

  /** `s` without its prefix `p`, if `s` starts with `p`. */
  function StripPrefix(p: string, s: string): (r: Option<string>)
    ensures r.Some? <==> |p| <= |s| && s[..|p|] == p
    ensures r.Some? ==> s == p + r.value
  {
    if |p| <= |s| && s[..|p|] == p then Some(s[|p|..]) else None
  }

  /** The text before the first `"` of `s` and the text after it. */
  function SplitAtQuote(s: string): (r: Option<(string, string)>)
    ensures r.None? <==> '"' !in s
    ensures r.Some? ==> '"' !in r.value.0 && s == r.value.0 + Quote + r.value.1
  {
    if s == [] then None
    else if s[0] == '"' then Some(([], s[1..]))
    else
      match SplitAtQuote(s[1..])
      case None => None
      case Some(parts) => Some(([s[0]] + parts.0, parts.1))
  }

  /** Reads back a body of the shape Marshal writes; None for anything else. */
  function Unmarshal(data: string): (r: Option<JsonError>)
    ensures r.Some? ==> PlainError(r.value)
  {
    match StripPrefix(CodeOpen, data)
    case None => None
    case Some(rest) =>
      match SplitAtQuote(rest)
      case None => None
      case Some(codeParts) =>
        match StripPrefix(MsgOpen, codeParts.1)
        case None => None
        case Some(rest') =>
          match SplitAtQuote(rest')
          case None => None
          case Some(msgParts) =>
            if msgParts.1 == Close && Plain(codeParts.0) && Plain(msgParts.0)
            then Some(JsonError(msgParts.0, codeParts.0))
            else None
  }

  /** A plain string followed by a quote splits exactly at that quote. */
  lemma {:induction false} SplitAtQuotePlain(a: string, b: string)
    requires Plain(a)
    ensures SplitAtQuote(a + Quote + b) == Some((a, b))
  {
    if a == [] {
      assert a + Quote + b == Quote + b;
    } else {
      assert (a + Quote + b)[1..] == a[1..] + Quote + b;
      SplitAtQuotePlain(a[1..], b);
      assert [a[0]] + a[1..] == a;
    }
  }

  /** Decoding a marshalled error gives the error back. */
  lemma UnmarshalMarshal(e: JsonError)
    requires PlainError(e)
    ensures Unmarshal(Marshal(e)) == Some(e)
  {
    var afterMsg := e.msg + Quote + Close;
    var afterCode := MsgOpen + afterMsg;
    var rest := e.code + Quote + afterCode;
    Regroup(CodeOpen, e.code, Quote, MsgOpen, e.msg, Quote, Close);
    assert Marshal(e) == CodeOpen + rest;
    assert StripPrefix(CodeOpen, CodeOpen + rest) == Some(rest) by {
      assert (CodeOpen + rest)[..|CodeOpen|] == CodeOpen;
    }
    SplitAtQuotePlain(e.code, afterCode);
    assert StripPrefix(MsgOpen, afterCode) == Some(afterMsg) by {
      assert (MsgOpen + afterMsg)[..|MsgOpen|] == MsgOpen;
    }
    SplitAtQuotePlain(e.msg, Close);
  }

  /**
   * Concatenation regrouped the way Unmarshal takes a body apart: a hint
   * for the solver, which does not find this regrouping on its own in the
   * two round-trip lemmas.
   */
  lemma Regroup(a: string, b: string, c: string, d: string, e: string, f: string, g: string)
    ensures a + b + c + d + e + f + g == a + (b + c + (d + (e + f + g)))
  {
  }

  /** Every body Unmarshal accepts is exactly what Marshal writes for its result. */
  lemma MarshalUnmarshal(data: string)
    requires Unmarshal(data).Some?
    ensures Marshal(Unmarshal(data).value) == data
  {
    var rest := StripPrefix(CodeOpen, data).value;
    var codeParts := SplitAtQuote(rest).value;
    var afterCode := StripPrefix(MsgOpen, codeParts.1).value;
    var msgParts := SplitAtQuote(afterCode).value;
    var c, m := codeParts.0, msgParts.0;
    assert Unmarshal(data).value == JsonError(m, c);
    assert afterCode == m + Quote + Close;
    assert codeParts.1 == MsgOpen + (m + Quote + Close);
    assert rest == c + Quote + (MsgOpen + (m + Quote + Close));
    assert data == CodeOpen + (c + Quote + (MsgOpen + (m + Quote + Close)));
    Regroup(CodeOpen, c, Quote, MsgOpen, m, Quote, Close);
  }
}
