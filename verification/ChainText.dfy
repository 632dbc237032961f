/**
 The text side of chain names: stripping, collapsing separators and lower-casing, over a Unicode table of which
 only the listed laws are used.
 */
module ChainText {
  import opened Common

  /**
   Lower-casing by character, white space, digits, and the value of those digits that a number may be written with.
   */
  datatype Unicode = Unicode(
    lower: char -> string, space: char -> bool, digit: char -> bool, value: char -> Option<nat>)

  predicate Separator(u: Unicode, c: char) {
    u.space(c) || c == '_' || c == '-'
  }

  ghost predicate LawfulLower(u: Unicode, c: char) {
    && u.lower(c) != []
    && (forall d | d in u.lower(c) :: u.lower(d) == [d])
    && (if Separator(u, c) then u.lower(c) == [c] else forall d | d in u.lower(c) :: !Separator(u, d))
    && ((forall d | d in u.lower(c) :: u.digit(d)) <==> u.digit(c))
  }

  ghost predicate Lawful(u: Unicode) {
    && (forall c: char :: LawfulLower(u, c))
    && u.space(' ') && !u.space('-') && !u.digit('-')
    && (forall c: char | u.digit(c) :: !Separator(u, c))
    && (forall c: char | '0' <= c <= '9' ::
          u.digit(c) && u.lower(c) == [c] && u.value(c) == Some(c as int - '0' as int))
    && (forall c: char | 'a' <= c <= 'z' :: !u.digit(c) && !u.space(c) && u.lower(c) == [c])
  }

  /** Plain ASCII keeps the laws. */
  const ASCII := Unicode(
    c => if 'A' <= c <= 'Z' then [(c as int + 32) as char] else [c],
    c => c == ' ' || '\t' <= c <= '\r',
    c => '0' <= c <= '9',
    c => if '0' <= c <= '9' then Some(c as int - '0' as int) else None)

  lemma AsciiIsLawful()
    ensures Lawful(ASCII)
  {
    forall c: char ensures LawfulLower(ASCII, c) {
      assert ASCII.lower(c)[0] in ASCII.lower(c);
    }
  }

  function Lower(u: Unicode, s: string): string {
    if s == [] then [] else u.lower(s[0]) + Lower(u, s[1..])
  }

  function StripLeft(u: Unicode, s: string): string {
    if s != [] && u.space(s[0]) then StripLeft(u, s[1..]) else s
  }

  function StripRight(u: Unicode, s: string): string {
    if s != [] && u.space(s[|s| - 1]) then StripRight(u, s[..|s| - 1]) else s
  }

  function Strip(u: Unicode, s: string): string {
    StripRight(u, StripLeft(u, s))
  }

  /** Every run of separators becomes one space; `inRun` says the character before was a separator. */
  function Collapse(u: Unicode, s: string, inRun: bool): string {
    if s == [] then []
    else if Separator(u, s[0]) then (if inRun then [] else [' ']) + Collapse(u, s[1..], true)
    else [s[0]] + Collapse(u, s[1..], false)
  }

  function Normalize(u: Unicode, s: string): string {
    Lower(u, Strip(u, Collapse(u, Strip(u, s), false)))
  }

  /** Non-empty and all digits. */
  predicate IsDigits(u: Unicode, s: string) {
    s != [] && forall i | 0 <= i < |s| :: u.digit(s[i])
  }

  /** No white space at either end. */
  predicate Trimmed(u: Unicode, s: string) {
    s == [] || (!u.space(s[0]) && !u.space(s[|s| - 1]))
  }

  /** Separators are single spaces. */
  predicate Collapsed(u: Unicode, s: string) {
    && (forall i | 0 <= i < |s| && Separator(u, s[i]) :: s[i] == ' ')
    && (forall i | 0 < i < |s| && Separator(u, s[i]) :: !Separator(u, s[i - 1]))
  }

  predicate NoSeparators(u: Unicode, s: string) {
    forall i | 0 <= i < |s| :: !Separator(u, s[i])
  }

  lemma {:induction false} LowerAppend(u: Unicode, a: string, b: string)
    ensures Lower(u, a + b) == Lower(u, a) + Lower(u, b)
  {
    if a == [] {
      assert a + b == b;
    } else {
      assert (a + b)[1..] == a[1..] + b;
      LowerAppend(u, a[1..], b);
    }
  }

  lemma {:induction false} LowerFixed(u: Unicode, s: string)
    requires forall i | 0 <= i < |s| :: u.lower(s[i]) == [s[i]]
    ensures Lower(u, s) == s
  {
    if s != [] {
      LowerFixed(u, s[1..]);
    }
  }

  lemma {:induction false} LowerTwice(u: Unicode, s: string)
    requires Lawful(u)
    ensures Lower(u, Lower(u, s)) == Lower(u, s)
  {
    if s != [] {
      assert LawfulLower(u, s[0]);
      LowerAppend(u, u.lower(s[0]), Lower(u, s[1..]));
      LowerFixed(u, u.lower(s[0]));
      LowerTwice(u, s[1..]);
    }
  }

  lemma LoweredFirst(u: Unicode, s: string)
    requires Lawful(u) && s != []
    ensures Lower(u, s) != [] && u.space(Lower(u, s)[0]) == u.space(s[0])
  {
    assert LawfulLower(u, s[0]);
    assert Lower(u, s)[0] == u.lower(s[0])[0];
    assert u.lower(s[0])[0] in u.lower(s[0]);
    if !u.space(s[0]) && Separator(u, s[0]) {
      assert u.lower(s[0]) == [s[0]];
    }
  }

  lemma LoweredLast(u: Unicode, s: string)
    requires Lawful(u) && s != []
    ensures Lower(u, s) != [] && u.space(Lower(u, s)[|Lower(u, s)| - 1]) == u.space(s[|s| - 1])
  {
    var c := s[|s| - 1];
    assert s == s[..|s| - 1] + [c];
    LowerAppend(u, s[..|s| - 1], [c]);
    assert Lower(u, [c]) == u.lower(c);
    assert LawfulLower(u, c);
    assert u.lower(c)[|u.lower(c)| - 1] in u.lower(c);
  }

  lemma {:induction false} LowerStripLeft(u: Unicode, s: string)
    requires Lawful(u)
    ensures StripLeft(u, Lower(u, s)) == Lower(u, StripLeft(u, s))
  {
    if s != [] {
      LoweredFirst(u, s);
      if u.space(s[0]) {
        assert LawfulLower(u, s[0]);
        assert Lower(u, s)[1..] == Lower(u, s[1..]);
        LowerStripLeft(u, s[1..]);
      }
    }
  }

  lemma {:induction false} LowerStripRight(u: Unicode, s: string)
    requires Lawful(u)
    ensures StripRight(u, Lower(u, s)) == Lower(u, StripRight(u, s))
  {
    if s != [] {
      LoweredLast(u, s);
      var c := s[|s| - 1];
      if u.space(c) {
        assert LawfulLower(u, c);
        assert s == s[..|s| - 1] + [c];
        LowerAppend(u, s[..|s| - 1], [c]);
        assert Lower(u, [c]) == [c];
        assert Lower(u, s)[..|Lower(u, s)| - 1] == Lower(u, s[..|s| - 1]);
        LowerStripRight(u, s[..|s| - 1]);
      }
    }
  }

  lemma LowerStrip(u: Unicode, s: string)
    requires Lawful(u)
    ensures Strip(u, Lower(u, s)) == Lower(u, Strip(u, s))
  {
    LowerStripLeft(u, s);
    LowerStripRight(u, StripLeft(u, s));
  }

  lemma {:induction false} CollapseWord(u: Unicode, word: string, rest: string, inRun: bool)
    requires word != [] && NoSeparators(u, word)
    ensures Collapse(u, word + rest, inRun) == word + Collapse(u, rest, false)
  {
    assert (word + rest)[1..] == word[1..] + rest;
    if |word| == 1 {
      assert word[1..] + rest == rest;
    } else {
      CollapseWord(u, word[1..], rest, false);
    }
  }

  lemma {:induction false} LowerCollapse(u: Unicode, s: string, inRun: bool)
    requires Lawful(u)
    ensures Collapse(u, Lower(u, s), inRun) == Lower(u, Collapse(u, s, inRun))
  {
    if s != [] {
      assert LawfulLower(u, s[0]);
      if Separator(u, s[0]) {
        assert Lower(u, s)[1..] == Lower(u, s[1..]);
        LowerCollapse(u, s[1..], true);
        assert LawfulLower(u, ' ');
        assert Lower(u, [' ']) == [' '];
        var rest := Collapse(u, s[1..], true);
        assert Collapse(u, s, inRun) == if inRun then rest else [' '] + rest;
        LowerAppend(u, [' '], rest);
      } else {
        forall i | 0 <= i < |u.lower(s[0])| ensures !Separator(u, u.lower(s[0])[i]) {
          assert u.lower(s[0])[i] in u.lower(s[0]);
        }
        CollapseWord(u, u.lower(s[0]), Lower(u, s[1..]), inRun);
        LowerCollapse(u, s[1..], false);
        assert Lower(u, [s[0]]) == u.lower(s[0]);
        LowerAppend(u, [s[0]], Collapse(u, s[1..], false));
      }
    }
  }

  lemma {:induction false} StripLeftTrims(u: Unicode, s: string)
    ensures |StripLeft(u, s)| <= |s| && StripLeft(u, s) == s[|s| - |StripLeft(u, s)|..]
    ensures StripLeft(u, s) != [] ==> !u.space(StripLeft(u, s)[0])
  {
    if s != [] && u.space(s[0]) {
      StripLeftTrims(u, s[1..]);
    }
  }

  lemma {:induction false} StripRightTrims(u: Unicode, s: string)
    ensures |StripRight(u, s)| <= |s| && StripRight(u, s) == s[..|StripRight(u, s)|]
    ensures StripRight(u, s) != [] ==> !u.space(StripRight(u, s)[|StripRight(u, s)| - 1])
  {
    if s != [] && u.space(s[|s| - 1]) {
      StripRightTrims(u, s[..|s| - 1]);
    }
  }

  /** Stripping gives a trimmed stretch of the text. */
  lemma StripTrims(u: Unicode, s: string) returns (from: nat)
    ensures Trimmed(u, Strip(u, s)) && from + |Strip(u, s)| <= |s| && Strip(u, s) == s[from..from + |Strip(u, s)|]
  {
    StripLeftTrims(u, s);
    StripRightTrims(u, StripLeft(u, s));
    from := |s| - |StripLeft(u, s)|;
  }

  lemma StripFixed(u: Unicode, s: string)
    requires Trimmed(u, s)
    ensures Strip(u, s) == s
  {}

  lemma {:induction false} CollapseCollapses(u: Unicode, s: string, inRun: bool)
    requires Lawful(u)
    ensures Collapsed(u, Collapse(u, s, inRun))
    ensures inRun && Collapse(u, s, inRun) != [] ==> !Separator(u, Collapse(u, s, inRun)[0])
  {
    if s != [] {
      CollapseCollapses(u, s[1..], Separator(u, s[0]));
    }
  }

  lemma {:induction false} CollapseFixed(u: Unicode, s: string, inRun: bool)
    requires Collapsed(u, s) && (inRun && s != [] ==> !Separator(u, s[0]))
    ensures Collapse(u, s, inRun) == s
  {
    if s != [] {
      assert forall i | 0 < i < |s| :: s[1..][i - 1] == s[i];
      CollapseFixed(u, s[1..], Separator(u, s[0]));
    }
  }

  lemma SliceStaysCollapsed(u: Unicode, s: string, from: nat, n: nat)
    requires Collapsed(u, s) && from + n <= |s|
    ensures Collapsed(u, s[from..from + n])
  {
    var t := s[from..from + n];
    assert forall i | 0 <= i < n :: t[i] == s[from + i];
    forall i | 0 < i < |t| && Separator(u, t[i]) ensures !Separator(u, t[i - 1]) {
      assert s[from + i - 1] == t[i - 1];
    }
  }

  /** The collapsed and stripped text is what a second pass would leave alone. */
  lemma CoreIsFixed(u: Unicode, s: string)
    requires Lawful(u)
    ensures
      var core := Strip(u, Collapse(u, Strip(u, s), false));
      Trimmed(u, core) && Collapsed(u, core) && Strip(u, Collapse(u, core, false)) == core
  {
    var collapsed := Collapse(u, Strip(u, s), false);
    CollapseCollapses(u, Strip(u, s), false);
    var from := StripTrims(u, collapsed);
    SliceStaysCollapsed(u, collapsed, from, |Strip(u, collapsed)|);
    CollapseFixed(u, Strip(u, collapsed), false);
    StripFixed(u, Strip(u, collapsed));
  }

  /** Normalizing is idempotent. */
  lemma NormalizeTwice(u: Unicode, s: string)
    requires Lawful(u)
    ensures Normalize(u, Normalize(u, s)) == Normalize(u, s)
  {
    var core := Strip(u, Collapse(u, Strip(u, s), false));
    CoreIsFixed(u, s);
    StripFixed(u, core);
    NormalizeLowered(u, core);
  }

  /** Lower-casing first changes nothing. */
  lemma NormalizeLowered(u: Unicode, s: string)
    requires Lawful(u) && Trimmed(u, s)
    ensures Normalize(u, Lower(u, s)) == Normalize(u, s)
  {
    StripFixed(u, s);
    LowerStrip(u, s);
    LowerCollapse(u, s, false);
    LowerStrip(u, Collapse(u, s, false));
    LowerTwice(u, Strip(u, Collapse(u, s, false)));
  }

  /** A text is what some input normalizes to exactly if normalizing leaves it alone. */
  lemma NormalForms(u: Unicode, k: string)
    requires Lawful(u)
    ensures (exists s: string :: Normalize(u, s) == k) <==> Normalize(u, k) == k
  {
    if s: string :| Normalize(u, s) == k {
      NormalizeTwice(u, s);
    }
  }

  lemma {:induction false} SeparatorsCollapseAlike(u: Unicode, a: string, c: char, b: string, inRun: bool)
    requires Lawful(u) && (u.space(c) || c == '_' || c == '-')
    ensures Collapse(u, a + [c] + b, inRun) == Collapse(u, a + [' '] + b, inRun)
  {
    if a == [] {
      assert (a + [c] + b)[1..] == b && (a + [' '] + b)[1..] == b;
    } else {
      assert (a + [c] + b)[1..] == a[1..] + [c] + b && (a + [' '] + b)[1..] == a[1..] + [' '] + b;
      SeparatorsCollapseAlike(u, a[1..], c, b, Separator(u, a[0]));
    }
  }

  /** Inside a label, white space of any kind, an underscore and a dash all read as a space. */
  lemma SeparatorsAreAlike(u: Unicode, a: string, c: char, b: string)
    requires Lawful(u) && (u.space(c) || c == '_' || c == '-')
    requires a != [] && b != [] && !u.space(a[0]) && !u.space(b[|b| - 1])
    ensures Normalize(u, a + [c] + b) == Normalize(u, a + [' '] + b)
  {
    StripFixed(u, a + [c] + b);
    StripFixed(u, a + [' '] + b);
    SeparatorsCollapseAlike(u, a, c, b, false);
  }
}
