/** `escape_json`: the five characters that the C++ backend escapes before
    splicing text into a JSON string literal, and a decoder that undoes it.
    Other control characters are copied raw, so the literal is valid JSON
    only for text without them; the decoder accepts them as written. */
module JsonEscape {
  import opened Wrappers

  /** The characters `escape_json` rewrites. */
  predicate Special(c: char)
  {
    c == '"' || c == '\\' || c == '\n' || c == '\r' || c == '\t'
  }

  /** The output for one input character. */
  function EscapeChar(c: char): string
  {
    match c
    case '"' => "\\\""
    case '\\' => "\\\\"
    case '\n' => "\\n"
    case '\r' => "\\r"
    case '\t' => "\\t"
    case _ => [c]
  }

  /** How many characters of `s` are escaped. */
  function SpecialCount(s: string): nat
  {
    if s == [] then 0 else (if Special(s[0]) then 1 else 0) + SpecialCount(s[1..])
  }

  /** Every special character becomes two characters, every other one is
      copied, so the output grows by exactly the number of escapes and holds
      no raw newline, carriage return or tab. */
  function Escape(s: string): (r: string)
    ensures |r| == |s| + SpecialCount(s)
    ensures SpecialCount(s) == 0 ==> r == s
    ensures forall k :: 0 <= k < |r| ==> r[k] != '\n' && r[k] != '\r' && r[k] != '\t'
  {
    if s == [] then [] else EscapeChar(s[0]) + Escape(s[1..])
  }

  lemma {:induction false} NoSpecialCountZero(s: string)
    ensures SpecialCount(s) == 0 <==> forall i :: 0 <= i < |s| ==> !Special(s[i])
  {
    if s != [] {
      NoSpecialCountZero(s[1..]);
      assert forall i :: 1 <= i < |s| ==> s[i] == s[1..][i - 1];
    }
  }

  /** The output is never shorter than the input, and has the same length
      exactly when the input holds none of the five characters, in which case
      it is the input itself. */
  lemma EscapeLength(s: string)
    ensures |Escape(s)| >= |s|
    ensures |Escape(s)| == |s| <==> forall i :: 0 <= i < |s| ==> !Special(s[i])
    ensures (forall i :: 0 <= i < |s| ==> !Special(s[i])) ==> Escape(s) == s
  {
    NoSpecialCountZero(s);
  }

  /** The character that follows a backslash in a JSON string, decoded
      (only the escapes `escape_json` produces). */
  function DecodeEscape(e: char): Option<char>
  {
    match e
    case '"' => Some('"')
    case '\\' => Some('\\')
    case 'n' => Some('\n')
    case 'r' => Some('\r')
    case 't' => Some('\t')
    case _ => None
  }

  /** Reads back what `escape_json` writes; `None` for a dangling or unknown
      escape and for a bare quote, which would end the literal. Unlike a JSON
      reader it takes raw control characters as they are. */
  function Unescape(r: string): Option<string>
    decreases |r|
  {
    if r == [] then Some([])
    else if r[0] == '\\' then
      if |r| < 2 then None
      else match (DecodeEscape(r[1]), Unescape(r[2..]))
           case (Some(c), Some(rest)) => Some([c] + rest)
           case _ => None
    else if r[0] == '"' then None
    else match Unescape(r[1..])
         case Some(rest) => Some([r[0]] + rest)
         case None => None
  }

  lemma UnescapeCons(c: char, t: string)
    ensures Unescape(EscapeChar(c) + t) ==
            match Unescape(t) case Some(rest) => Some([c] + rest) case None => None
  {
    var e := EscapeChar(c) + t;
    if Special(c) {
      assert e[2..] == t;
    } else {
      assert e[1..] == t;
    }
  }

  /** Escaping loses nothing: decoding the output gives back the input. */
  lemma {:induction false} UnescapeEscape(s: string)
    ensures Unescape(Escape(s)) == Some(s)
  {
    if s != [] {
      UnescapeEscape(s[1..]);
      UnescapeCons(s[0], Escape(s[1..]));
      assert [s[0]] + s[1..] == s;
    }
  }

  lemma {:induction false} EscapeAppend(a: string, b: string)
    ensures Escape(a + b) == Escape(a) + Escape(b)
  {
    if a != [] {
      assert (a + b)[1..] == a[1..] + b;
      EscapeAppend(a[1..], b);
    } else {
      assert a + b == b;
    }
  }

  /** A control character other than newline, carriage return and tab is
      copied raw into the literal, where a JSON reader would reject it. */
  lemma ControlCharStaysRaw(a: string, c: char, b: string)
    requires c < ' ' && !Special(c)
    ensures Escape(a + [c] + b) == Escape(a) + [c] + Escape(b)
  {
    EscapeAppend(a + [c], b);
    EscapeAppend(a, [c]);
  }
}
