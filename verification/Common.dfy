/** Small vocabulary shared by every component of the model. */
module Common {

  datatype Option<+T> = None | Some(value: T)

  datatype Result<+T, +E> = Ok(value: T) | Err(error: E)

  /** Instants are integers; 0 is Go's zero time. Durations are nanoseconds. */
  type Time = int

  /** The characters that Go's strings.TrimSpace removes. */
  predicate IsSpace(c: char) {
    || c in {'\t', '\n', '\U{0B}', '\U{0C}', '\r', ' ', '\U{85}', '\U{A0}', '\U{1680}'}
    || '\U{2000}' <= c <= '\U{200A}'
    || c in {'\U{2028}', '\U{2029}', '\U{202F}', '\U{205F}', '\U{3000}'}
  }

  /** strings.TrimSpace(s) == "" */
  predicate Blank(s: string) {
    forall i | 0 <= i < |s| :: IsSpace(s[i])
  }

  function TrimLeft(s: string): string {
    if s != "" && IsSpace(s[0]) then TrimLeft(s[1..]) else s
  }

  function TrimRight(s: string): string {
    if s != "" && IsSpace(s[|s| - 1]) then TrimRight(s[..|s| - 1]) else s
  }

  /** strings.TrimSpace */
  function Trim(s: string): string {
    TrimRight(TrimLeft(s))
  }

  lemma {:induction false} TrimLeftEnds(s: string)
    ensures Blank(s) <==> TrimLeft(s) == ""
    ensures TrimLeft(s) != "" ==> !IsSpace(TrimLeft(s)[0])
  {
    if s != "" {
      TrimLeftEnds(s[1..]);
      assert s == [s[0]] + s[1..];
    }
  }

  lemma {:induction false} TrimRightEnds(s: string)
    ensures Blank(s) <==> TrimRight(s) == ""
    ensures TrimRight(s) <= s
    ensures TrimRight(s) != "" ==> !IsSpace(TrimRight(s)[|TrimRight(s)| - 1])
  {
    if s != "" {
      TrimRightEnds(s[..|s| - 1]);
      assert s == s[..|s| - 1] + [s[|s| - 1]];
    }
  }

  /** Trimming is done once and for all, and leaves nothing exactly of what is blank. */
  lemma TrimTwice(s: string)
    ensures Trim(Trim(s)) == Trim(s)
    ensures Blank(s) <==> Trim(s) == ""
    ensures Blank(s) <==> Blank(Trim(s))
  {
    TrimLeftEnds(s);
    TrimRightEnds(TrimLeft(s));
    if Trim(s) != "" {
      assert Trim(s)[0] == TrimLeft(s)[0];
      assert TrimLeft(Trim(s)) == Trim(s);
    }
  }
}
