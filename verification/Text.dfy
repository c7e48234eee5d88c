/** Text and number fields of the forms, as far as the helpers look into them. */
module Text {
  import opened Wrappers

  /** A space, tab, line break or form feed. */
  predicate IsSpace(c: char) {
    c == ' ' || 9 <= c as int <= 13
  }

  function TrimLeft(s: string): string {
    if s != "" && IsSpace(s[0]) then TrimLeft(s[1..]) else s
  }

  function TrimRight(s: string): string {
    if s != "" && IsSpace(s[|s| - 1]) then TrimRight(s[..|s| - 1]) else s
  }

  function Trim(s: string): string {
    TrimRight(TrimLeft(s))
  }

  function Lower(s: string): string {
    seq(|s|, k requires 0 <= k < |s| => if 'A' <= s[k] <= 'Z' then (s[k] as int + 32) as char else s[k])
  }

  /** The same name, whatever the case and the spaces around it. */
  predicate Same(a: string, b: string) {
    Lower(Trim(a)) == Lower(Trim(b))
  }

  predicate AllSpace(s: string) {
    forall k | 0 <= k < |s| :: IsSpace(s[k])
  }

  lemma {:induction false} TrimRightEnds(s: string)
    ensures TrimRight(s) <= s && AllSpace(s[|TrimRight(s)|..])
    ensures TrimRight(s) != "" ==> !IsSpace(TrimRight(s)[|TrimRight(s)| - 1])
  {
    if s != "" && IsSpace(s[|s| - 1]) {
      var init := s[..|s| - 1];
      TrimRightEnds(init);
      var n := |TrimRight(s)|;
      assert s[n..] == init[n..] + [s[|s| - 1]];
    } else {
      assert s[|s|..] == "";
    }
  }

  /** How many spaces come before the first other character. */
  function SpacesBefore(s: string): nat {
    if s != "" && IsSpace(s[0]) then 1 + SpacesBefore(s[1..]) else 0
  }

  lemma {:induction false} TrimLeftStarts(s: string)
    ensures var n := SpacesBefore(s); n <= |s| && TrimLeft(s) == s[n..] && AllSpace(s[..n])
    ensures TrimLeft(s) != "" ==> !IsSpace(TrimLeft(s)[0])
  {
    if s != "" && IsSpace(s[0]) {
      var n := SpacesBefore(s[1..]);
      TrimLeftStarts(s[1..]);
      assert s[1..][n..] == s[n + 1..];
      assert s[..n + 1] == [s[0]] + s[1..][..n];
    }
  }

  /** Trimming takes spaces off both ends, all of them, and nothing else. */
  lemma TrimIs(s: string)
    ensures var n := SpacesBefore(s);
      var m := n + |Trim(s)|;
      m <= |s| && AllSpace(s[..n]) && Trim(s) == s[n..m] && AllSpace(s[m..])
    ensures Trim(s) != "" ==> !IsSpace(Trim(s)[0]) && !IsSpace(Trim(s)[|Trim(s)| - 1])
  {
    TrimLeftStarts(s);
    TrimRightEnds(TrimLeft(s));
    var n := SpacesBefore(s);
    var m := n + |Trim(s)|;
    assert s[n..m] == s[n..][..|Trim(s)|] && s[m..] == s[n..][|Trim(s)|..];
  }

  lemma TrimTwice(s: string)
    ensures Trim(Trim(s)) == Trim(s)
  {
    TrimLeftStarts(s);
    TrimRightEnds(TrimLeft(s));
    assert TrimLeft(Trim(s)) == Trim(s);
  }

  /** One letter, whatever its case. */
  predicate SameLetter(c: char, d: char) {
    c == d || ('A' <= c <= 'Z' && d as int == c as int + 32) || ('A' <= d <= 'Z' && c as int == d as int + 32)
  }

  /** Names are the same when they are letter by letter, once trimmed. */
  lemma SameIs(a: string, b: string)
    ensures Same(a, b) <==> |Trim(a)| == |Trim(b)| && forall k | 0 <= k < |Trim(a)| :: SameLetter(Trim(a)[k], Trim(b)[k])
  {
    var s, t := Trim(a), Trim(b);
    assert |Lower(s)| == |s| && |Lower(t)| == |t|;
    if |s| == |t| {
      forall k | 0 <= k < |s| ensures Lower(s)[k] == Lower(t)[k] <==> SameLetter(s[k], t[k]) {
      }
    }
  }

  /**
    A number field: empty, not a number, or a number, written the way the page writes it (`typed` is
    None) or some other way ("5.0", or spaces, which read as 0).
   */
  datatype Entry = Blank | Unreadable(text: string) | Number(value: real, typed: Option<string>)

  /** A number as the page writes it. */
  function Shown(x: real): Entry {
    Number(x, None)
  }

  /** What a field reads as; an empty one is 0. */
  function NumberOf(e: Entry): Option<real> {
    match e
    case Blank => Some(0.0)
    case Unreadable(_) => None
    case Number(x, _) => Some(x)
  }

  /** A whole number, and not an unreadable one. */
  predicate IsInteger(x: Option<real>) {
    x.Some? && x.value == x.value.Floor as real
  }
}
