/** The single-line text input every editor of the screens is built on, as far
    as the text it holds goes. Putting a value into it first cleans the text
    (a tab, a line feed or a carriage return becomes a space; any other
    control character and the replacement character U+FFFD are dropped) and
    then keeps only the first characters up to the input's character limit.
    Characters are Unicode code points, as the input counts them. */
module TextInput {
  import opened GoText

  /** The characters that become a space. */
  predicate IsBreak(c: char)
  {
    c == '\t' || c == '\n' || c == '\r'
  }

  /** The characters that are dropped: the other C0 and C1 control
      characters, and U+FFFD. */
  predicate IsDropped(c: char)
  {
    (c < ' ' && !IsBreak(c)) || ('\U{7F}' <= c <= '\U{9F}') || c == '\U{FFFD}'
  }

  /** A character the input keeps as it is. */
  predicate IsClean(c: char)
  {
    !IsBreak(c) && !IsDropped(c)
  }

  predicate AllClean(s: string)
  {
    forall i :: 0 <= i < |s| ==> IsClean(s[i])
  }

  /** A text the input holds unchanged under a limit of `limit` characters. */
  predicate Fits(s: string, limit: nat)
  {
    |s| <= limit && AllClean(s)
  }

  /** The cleaning step, one character at a time. */
  function Sanitize(s: string): (r: string)
    ensures |r| <= |s|
    ensures AllClean(r)
    ensures AllClean(s) ==> r == s
  {
    if s == [] then []
    else if IsDropped(s[0]) then Sanitize(s[1..])
    else
      var c := if IsBreak(s[0]) then ' ' else s[0];
      var r := [c] + Sanitize(s[1..]);
      assert forall i :: 1 <= i < |r| ==> r[i] == Sanitize(s[1..])[i - 1];
      r
  }

  /** The number of characters the cleaning step drops. */
  function DroppedCount(s: string): nat
  {
    if s == [] then 0 else (if IsDropped(s[0]) then 1 else 0) + DroppedCount(s[1..])
  }

  /** Cleaning shortens a text by exactly its dropped characters: a break
      becomes one space. */
  lemma {:induction false} SanitizeLength(s: string)
    ensures |Sanitize(s)| == |s| - DroppedCount(s)
  {
    if s != [] {
      SanitizeLength(s[1..]);
    }
  }

  /** The limit step: the first `limit` characters. */
  function Clip(s: string, limit: nat): (r: string)
    ensures |r| == if |s| <= limit then |s| else limit
    ensures r == s[..|r|]
  {
    if |s| <= limit then s else s[..limit]
  }

  /** The text the input holds after its value is set to `s`. */
  function SetValue(s: string, limit: nat): (r: string)
    ensures Fits(r, limit)
    ensures r == s <==> Fits(s, limit)
  {
    Clip(Sanitize(s), limit)
  }

  /** A decimal spelling is made of digits and a minus sign, which the
      input keeps. */
  lemma ItoaClean(n: int)
    ensures AllClean(Itoa(n))
  {
    var s := Itoa(n);
    var m: int := n;
    var d := if m < 0 then NatDigits(-m) else NatDigits(m);
    forall i | 0 <= i < |s|
      ensures IsClean(s[i])
    {
      if m < 0 && i > 0 {
        assert s[i] == d[i - 1];
      } else if m >= 0 {
        assert s[i] == d[i];
      }
    }
  }

  /** The input holds a decimal spelling cut to the limit. */
  lemma SetValueItoa(n: int, limit: nat)
    ensures SetValue(Itoa(n), limit) == Clip(Itoa(n), limit)
  {
    ItoaClean(n);
  }
}
