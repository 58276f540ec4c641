/** The key-case conversions of lib/util.js: `toSnakeCase`, `toLispCase`, `toCamelCase` and the tree walk they share. */
module KeyCase {
  import opened Basics
  import opened KeyTree

  predicate IsUpper(c: char) { 'A' <= c <= 'Z' }
  predicate IsLower(c: char) { 'a' <= c <= 'z' }
  predicate IsSeparator(c: char) { c == '_' || c == '-' }

  function Lower(c: char): (r: char)
    ensures IsUpper(c) ==> IsLower(r)
    ensures !IsUpper(c) ==> r == c
  {
    if IsUpper(c) then ((c as int) + 32) as char else c
  }

  function Upper(c: char): (r: char)
    ensures IsLower(c) ==> IsUpper(r)
  {
    if IsLower(c) then ((c as int) - 32) as char else c
  }

  function LowerAll(s: string): (r: string)
    ensures |r| == |s| && forall i :: 0 <= i < |s| ==> r[i] == Lower(s[i])
  {
    seq(|s|, i requires 0 <= i < |s| => Lower(s[i]))
  }

  /** The length of the run of capitals that `s` starts with. */
  function UpperRun(s: string): (n: nat)
    ensures n <= |s|
    ensures forall i :: 0 <= i < n ==> IsUpper(s[i])
    ensures n < |s| ==> !IsUpper(s[n])
  {
    if s != "" && IsUpper(s[0]) then 1 + UpperRun(s[1..]) else 0
  }

  /** Every run of capitals becomes `sep` and the run in lower case. */
  function SplitCapitals(s: string, sep: char): string {
    if s == "" then ""
    else if IsUpper(s[0]) then
      var n := UpperRun(s);
      [sep] + LowerAll(s[..n]) + SplitCapitals(s[n..], sep)
    else [s[0]] + SplitCapitals(s[1..], sep)
  }

  /** Every separator followed by a lower-case letter becomes that letter's capital. */
  function JoinCapitals(s: string): string {
    if |s| >= 2 && IsSeparator(s[0]) && IsLower(s[1]) then [Upper(s[1])] + JoinCapitals(s[2..])
    else if s == "" then ""
    else [s[0]] + JoinCapitals(s[1..])
  }

  function RemoveUnderscorePrefix(newStr: string, oldStr: string): string {
    if newStr != "" && newStr[0] == '_' && (oldStr == "" || oldStr[0] != '_') then newStr[1..] else newStr
  }

  datatype Case = Snake | Lisp | Camel

  function NewKey(c: Case, key: string): string {
    RemoveUnderscorePrefix(
      match c
      case Snake => SplitCapitals(key, '_')
      case Lisp => SplitCapitals(key, '-')
      case Camel => JoinCapitals(key),
      key)
  }

  /** No two adjacent capitals, and no separator before a lower-case letter. */
  predicate Reversible(s: string) {
    forall i :: 0 <= i < |s| - 1 ==>
      !(IsUpper(s[i]) && IsUpper(s[i + 1])) && !(IsSeparator(s[i]) && IsLower(s[i + 1]))
  }

  /** Whether camel case gives back the key it was converted from: snake case also loses a capital at the start. */
  predicate Survives(c: Case, key: string)
    requires !c.Camel?
  {
    Reversible(key) && (c.Snake? && key != "" ==> !IsUpper(key[0]))
  }

  // -------- which strings a conversion leaves alone --------

  /** Snake and lisp case leave a string alone if and only if it has no capital. */
  lemma {:induction false} SplitLeavesAloneIff(s: string, sep: char)
    requires IsSeparator(sep)
    ensures SplitCapitals(s, sep) == s <==> forall i :: 0 <= i < |s| ==> !('A' <= s[i] <= 'Z')
    ensures |SplitCapitals(s, sep)| >= |s|
    decreases |s|
  {
    if s != "" {
      assert s == [s[0]] + s[1..];
      if 'A' <= s[0] <= 'Z' {
        SplitLeavesAloneIff(s[UpperRun(s)..], sep);
        assert SplitCapitals(s, sep)[0] == sep;
      } else {
        SplitLeavesAloneIff(s[1..], sep);
        assert SplitCapitals(s, sep) == [s[0]] + SplitCapitals(s[1..], sep);
        assert SplitCapitals(s, sep)[1..] == SplitCapitals(s[1..], sep);
        assert forall i :: 0 <= i < |s[1..]| ==> s[1..][i] == s[i + 1];
      }
    }
  }

  /** Camel case leaves a string alone if and only if no underscore or hyphen comes before a lower-case letter. */
  lemma {:induction false} JoinLeavesAloneIff(s: string)
    ensures |JoinCapitals(s)| <= |s|
    ensures JoinCapitals(s) == s <==>
            forall i :: 0 <= i < |s| - 1 ==> !((s[i] == '_' || s[i] == '-') && 'a' <= s[i + 1] <= 'z')
    decreases |s|
  {
    if |s| >= 2 && (s[0] == '_' || s[0] == '-') && 'a' <= s[1] <= 'z' {
      JoinLeavesAloneIff(s[2..]);
    } else if s != "" {
      JoinLeavesAloneIff(s[1..]);
      assert s == [s[0]] + s[1..];
      assert JoinCapitals(s)[1..] == JoinCapitals(s[1..]);
      assert forall i :: 0 <= i < |s[1..]| ==> s[1..][i] == s[i + 1];
    }
  }

  // -------- one key --------

  /** Letters that no separator precedes pass through `JoinCapitals`. */
  lemma {:induction false} JoinPassesLetters(letters: string, rest: string)
    requires forall i :: 0 <= i < |letters| ==> !IsSeparator(letters[i])
    ensures JoinCapitals(letters + rest) == letters + JoinCapitals(rest)
  {
    if letters == "" {
      assert letters + rest == rest;
    } else {
      JoinPassesLetters(letters[1..], rest);
      assert (letters + rest)[1..] == letters[1..] + rest;
      assert letters == [letters[0]] + letters[1..];
    }
  }

  lemma LowerAllTail(s: string, n: nat)
    requires 1 <= n <= |s|
    ensures LowerAll(s[..n]) == [Lower(s[0])] + LowerAll(s[1..n])
  {
    forall i | 0 <= i < n
      ensures LowerAll(s[..n])[i] == ([Lower(s[0])] + LowerAll(s[1..n]))[i]
    {
      if i > 0 {
        assert s[1..n][i - 1] == s[i];
      }
    }
  }

  lemma JoinAtPair(sep: char, low: char, rest: string)
    requires IsSeparator(sep) && IsLower(low)
    ensures JoinCapitals([sep] + [low] + rest) == [Upper(low)] + JoinCapitals(rest)
  {
    var out := [sep] + [low] + rest;
    assert out[2..] == rest;
  }

  lemma SplitAtRun(s: string, sep: char)
    requires s != "" && IsUpper(s[0])
    ensures UpperRun(s) >= 1
    ensures SplitCapitals(s, sep) ==
            [sep] + [Lower(s[0])] + (LowerAll(s[1..UpperRun(s)]) + SplitCapitals(s[UpperRun(s)..], sep))
  {
    LowerAllTail(s, UpperRun(s));
  }

  lemma UpperOfLower(c: char)
    requires IsUpper(c)
    ensures Upper(Lower(c)) == c
  {
  }

  lemma JoinPassesLowered(run: string, rest: string)
    requires forall i :: 0 <= i < |run| ==> IsUpper(run[i])
    ensures JoinCapitals(LowerAll(run) + rest) == LowerAll(run) + JoinCapitals(rest)
  {
    JoinPassesLetters(LowerAll(run), rest);
  }

  /** The round trip without the prefix rule, one step at a time: at a run of capitals. */
  lemma RoundTripAtRun(s: string, sep: char)
    requires IsSeparator(sep) && s != "" && IsUpper(s[0])
    ensures UpperRun(s) >= 1
    ensures JoinCapitals(SplitCapitals(s, sep)) ==
            [s[0]] + (LowerAll(s[1..UpperRun(s)]) + JoinCapitals(SplitCapitals(s[UpperRun(s)..], sep)))
  {
    SplitAtRun(s, sep);
    var run, rest := s[1..UpperRun(s)], SplitCapitals(s[UpperRun(s)..], sep);
    JoinAtPair(sep, Lower(s[0]), LowerAll(run) + rest);
    UpperOfLower(s[0]);
    JoinPassesLowered(run, rest);
  }

  /** At a separator before a lower-case letter. */
  lemma RoundTripAtPair(s: string, sep: char)
    requires IsSeparator(sep) && |s| >= 2 && IsSeparator(s[0]) && IsLower(s[1])
    ensures JoinCapitals(SplitCapitals(s, sep)) == [Upper(s[1])] + JoinCapitals(SplitCapitals(s[2..], sep))
  {
    assert s == [s[0]] + ([s[1]] + s[2..]);
    SplitPasses(s[0], [s[1]] + s[2..], sep);
    SplitPasses(s[1], s[2..], sep);
    JoinsPair(s[0], s[1], SplitCapitals(s[2..], sep));
    assert [s[0]] + ([s[1]] + SplitCapitals(s[2..], sep)) == [s[0], s[1]] + SplitCapitals(s[2..], sep);
  }

  lemma SplitPasses(first: char, rest: string, sep: char)
    requires !IsUpper(first)
    ensures SplitCapitals([first] + rest, sep) == [first] + SplitCapitals(rest, sep)
  {
    assert ([first] + rest)[1..] == rest;
  }

  lemma JoinsPair(first: char, second: char, rest: string)
    requires IsSeparator(first) && IsLower(second)
    ensures JoinCapitals([first, second] + rest) == [Upper(second)] + JoinCapitals(rest)
  {
    assert ([first, second] + rest)[2..] == rest;
  }

  /** Anywhere else. */
  lemma RoundTripElsewhere(s: string, sep: char)
    requires IsSeparator(sep) && s != "" && !IsUpper(s[0])
    requires !(|s| >= 2 && IsSeparator(s[0]) && IsLower(s[1]))
    ensures JoinCapitals(SplitCapitals(s, sep)) == [s[0]] + JoinCapitals(SplitCapitals(s[1..], sep))
  {
    var rest := SplitCapitals(s[1..], sep);
    assert SplitCapitals(s, sep) == [s[0]] + rest;
    assert ([s[0]] + rest)[1..] == rest;
    if |s| >= 2 && IsUpper(s[1]) {
      assert rest[0] == sep;
    }
  }

  lemma {:induction false} RoundTripBody(s: string, sep: char)
    requires IsSeparator(sep)
    ensures |JoinCapitals(SplitCapitals(s, sep))| <= |s|
    ensures JoinCapitals(SplitCapitals(s, sep)) == s <==> Reversible(s)
    decreases |s|
  {
    if s == "" {
    } else if IsUpper(s[0]) {
      var n := UpperRun(s);
      RoundTripAtRun(s, sep);
      RoundTripBody(s[n..], sep);
      var tail := JoinCapitals(SplitCapitals(s[n..], sep));
      if n == 1 {
        assert LowerAll(s[1..n]) + tail == tail;
        ConsEquals(s[0], s, tail);
        TailReversible(s);
      } else {
        LongRunIsLost(s, n, tail);
      }
    } else if |s| >= 2 && IsSeparator(s[0]) && IsLower(s[1]) {
      RoundTripAtPair(s, sep);
      RoundTripBody(s[2..], sep);
    } else {
      RoundTripElsewhere(s, sep);
      RoundTripBody(s[1..], sep);
      ConsEquals(s[0], s, JoinCapitals(SplitCapitals(s[1..], sep)));
      TailReversible(s);
    }
  }

  /** A run of two or more capitals is lost. */
  lemma LongRunIsLost(s: string, n: nat, tail: string)
    requires 2 <= n <= |s| && IsUpper(s[0]) && IsUpper(s[1])
    ensures [s[0]] + (LowerAll(s[1..n]) + tail) != s && !Reversible(s)
  {
    var low := LowerAll(s[1..n]);
    assert low[0] == Lower(s[1]);
    assert ([s[0]] + (low + tail))[1] == low[0];
    assert IsUpper(s[0]) && IsUpper(s[0 + 1]);
  }

  lemma ConsEquals(c: char, s: string, tail: string)
    requires s != "" && s[0] == c
    ensures [c] + tail == s <==> tail == s[1..]
  {
    assert ([c] + tail)[1..] == tail;
    assert s == [s[0]] + s[1..];
  }

  /** Only the first pair separates a string's reversibility from its tail's. */
  lemma TailReversible(s: string)
    requires s != ""
    requires |s| >= 2 ==> !(IsUpper(s[0]) && IsUpper(s[1])) && !(IsSeparator(s[0]) && IsLower(s[1]))
    ensures Reversible(s) <==> Reversible(s[1..])
  {
    if Reversible(s[1..]) {
      forall i | 0 <= i < |s| - 1
        ensures !(IsUpper(s[i]) && IsUpper(s[i + 1])) && !(IsSeparator(s[i]) && IsLower(s[i + 1]))
      {
        if i > 0 {
          assert s[i] == s[1..][i - 1] && s[i + 1] == s[1..][i - 1 + 1];
        }
      }
    }
  }

  /** For every key, camel case undoes snake or lisp case exactly when the key `Survives`. */
  lemma KeyRoundTrip(c: Case, key: string)
    requires !c.Camel?
    ensures NewKey(Camel, NewKey(c, key)) == key <==> Survives(c, key)
  {
    var sep := if c.Snake? then '_' else '-';
    RoundTripBody(key, sep);
    CamelKeepsPrefix(NewKey(c, key));
    if key != "" && IsUpper(key[0]) && c.Snake? {
      SnakeOfLeadingCapital(key);
      JoinPassesLowered(key[..UpperRun(key)], SplitCapitals(key[UpperRun(key)..], '_'));
      assert NewKey(Camel, NewKey(c, key))[0] == Lower(key[0]);
    }
  }

  /** The prefix rule never applies on the way back: `JoinCapitals` adds no leading underscore. */
  lemma CamelKeepsPrefix(s: string)
    ensures NewKey(Camel, s) == JoinCapitals(s)
  {
  }

  // -------- the condition is exact --------

  /** Two for every character and one more for a capital: what a lossy round trip must lower. */
  function KeyWeight(s: string): nat {
    if s == "" then 0 else KeyWeight(s[..|s| - 1]) + CharWeight(s[|s| - 1])
  }

  function CharWeight(c: char): nat {
    if IsUpper(c) then 3 else 2
  }

  lemma {:induction false} KeyWeightAppend(a: string, b: string)
    ensures KeyWeight(a + b) == KeyWeight(a) + KeyWeight(b)
  {
    if b == "" {
      assert a + b == a;
    } else {
      KeyWeightAppend(a, b[..|b| - 1]);
      AppendInit(a, b);
    }
  }

  lemma KeyWeightCons(c: char, s: string)
    ensures KeyWeight([c] + s) == CharWeight(c) + KeyWeight(s)
  {
    KeyWeightAppend([c], s);
    assert [c][..0] == "";
  }

  lemma KeyWeightHead(s: string)
    requires s != ""
    ensures KeyWeight(s) == CharWeight(s[0]) + KeyWeight(s[1..])
  {
    assert s == [s[0]] + s[1..];
    KeyWeightCons(s[0], s[1..]);
  }

  lemma {:induction false} CapitalsWeight(run: string)
    requires forall i :: 0 <= i < |run| ==> IsUpper(run[i])
    ensures KeyWeight(run) == 3 * |run| && KeyWeight(LowerAll(run)) == 2 * |run|
  {
    if run != "" {
      var n := |run| - 1;
      CapitalsWeight(run[..n]);
      assert LowerAll(run)[..n] == LowerAll(run[..n]);
    }
  }

  lemma {:induction false} BodyWeight(s: string, sep: char)
    requires IsSeparator(sep)
    ensures KeyWeight(JoinCapitals(SplitCapitals(s, sep))) <= KeyWeight(s)
    ensures !Reversible(s) ==> KeyWeight(JoinCapitals(SplitCapitals(s, sep))) < KeyWeight(s)
    decreases |s|
  {
    if s == "" {
    } else if IsUpper(s[0]) {
      var n := UpperRun(s);
      RoundTripAtRun(s, sep);
      BodyWeight(s[n..], sep);
      RunWeight(s, n, JoinCapitals(SplitCapitals(s[n..], sep)));
      if n == 1 {
        TailReversible(s);
      }
    } else if |s| >= 2 && IsSeparator(s[0]) && IsLower(s[1]) {
      RoundTripAtPair(s, sep);
      BodyWeight(s[2..], sep);
      PairWeight(s, JoinCapitals(SplitCapitals(s[2..], sep)));
    } else {
      RoundTripElsewhere(s, sep);
      BodyWeight(s[1..], sep);
      KeyWeightCons(s[0], JoinCapitals(SplitCapitals(s[1..], sep)));
      KeyWeightHead(s);
      TailReversible(s);
    }
  }

  lemma PairWeight(s: string, tail: string)
    requires |s| >= 2 && IsSeparator(s[0]) && IsLower(s[1])
    ensures KeyWeight([Upper(s[1])] + tail) == 3 + KeyWeight(tail)
    ensures KeyWeight(s) == 4 + KeyWeight(s[2..])
  {
    KeyWeightCons(Upper(s[1]), tail);
    KeyWeightHead(s);
    KeyWeightHead(s[1..]);
    assert s[1..][1..] == s[2..];
  }

  lemma RunWeight(s: string, n: nat, tail: string)
    requires 1 <= n == UpperRun(s)
    ensures KeyWeight([s[0]] + (LowerAll(s[1..n]) + tail)) == 1 + 2 * n + KeyWeight(tail)
    ensures KeyWeight(s) == 3 * n + KeyWeight(s[n..])
  {
    CapitalsWeight(s[1..n]);
    KeyWeightAppend(LowerAll(s[1..n]), tail);
    KeyWeightCons(s[0], LowerAll(s[1..n]) + tail);
    SplitWeight(s, n);
  }

  lemma SplitWeight(s: string, n: nat)
    requires n <= |s| && forall i :: 0 <= i < n ==> IsUpper(s[i])
    ensures KeyWeight(s) == 3 * n + KeyWeight(s[n..])
  {
    CapitalsWeight(s[..n]);
    assert s == s[..n] + s[n..];
    KeyWeightAppend(s[..n], s[n..]);
  }

  /** A key that does not survive the round trip comes back lighter. */
  lemma LostKeyIsLighter(c: Case, key: string)
    requires !c.Camel?
    ensures KeyWeight(NewKey(Camel, NewKey(c, key))) <= KeyWeight(key)
    ensures !Survives(c, key) ==> KeyWeight(NewKey(Camel, NewKey(c, key))) < KeyWeight(key)
  {
    var sep := if c.Snake? then '_' else '-';
    CamelKeepsPrefix(NewKey(c, key));
    if key != "" && IsUpper(key[0]) && c.Snake? {
      LeadingCapitalIsLighter(key, JoinCapitals(NewKey(Snake, key)));
    } else {
      BodyWeight(key, sep);
    }
  }

  lemma SnakeOfLeadingCapital(key: string)
    requires key != "" && IsUpper(key[0])
    ensures NewKey(Snake, key) == LowerAll(key[..UpperRun(key)]) + SplitCapitals(key[UpperRun(key)..], '_')
  {
    assert SplitCapitals(key, '_')[1..] == LowerAll(key[..UpperRun(key)]) + SplitCapitals(key[UpperRun(key)..], '_');
  }

  lemma LoweredRunIsLighter(run: string, rest: string, tail: string)
    requires run != "" && forall i :: 0 <= i < |run| ==> IsUpper(run[i])
    requires KeyWeight(tail) <= KeyWeight(rest)
    ensures KeyWeight(LowerAll(run) + tail) < KeyWeight(run + rest)
  {
    KeyWeightAppend(LowerAll(run), tail);
    KeyWeightAppend(run, rest);
    CapitalsWeight(run);
  }

  lemma LeadingCapitalGoesBack(key: string, run: string, rest: string)
    requires key != "" && IsUpper(key[0]) && run == key[..UpperRun(key)] && rest == key[UpperRun(key)..]
    ensures JoinCapitals(NewKey(Snake, key)) == LowerAll(run) + JoinCapitals(SplitCapitals(rest, '_'))
  {
    SnakeOfLeadingCapital(key);
    JoinPassesLowered(run, SplitCapitals(rest, '_'));
  }

  lemma LoweredIsLighter(key: string, back: string, run: string, rest: string)
    requires key == run + rest && run != "" && forall i :: 0 <= i < |run| ==> IsUpper(run[i])
    requires back == LowerAll(run) + JoinCapitals(SplitCapitals(rest, '_'))
    ensures KeyWeight(back) < KeyWeight(key)
  {
    BodyWeight(rest, '_');
    LoweredRunIsLighter(run, rest, JoinCapitals(SplitCapitals(rest, '_')));
  }

  lemma RunSplits(s: string)
    requires s != "" && IsUpper(s[0])
    ensures s == s[..UpperRun(s)] + s[UpperRun(s)..] && s[..UpperRun(s)] != ""
    ensures forall i :: 0 <= i < UpperRun(s) ==> IsUpper(s[..UpperRun(s)][i])
  {
  }

  lemma LeadingCapitalIsLighter(key: string, back: string)
    requires key != "" && IsUpper(key[0]) && back == JoinCapitals(NewKey(Snake, key))
    ensures KeyWeight(back) < KeyWeight(key)
  {
    var run, rest := key[..UpperRun(key)], key[UpperRun(key)..];
    LeadingCapitalGoesBack(key, run, rest);
    RunSplits(key);
    LoweredIsLighter(key, back, run, rest);
  }

  // -------- whole trees --------

  /** The conversion of one key, as the function the walk is given. */
  function Converter(c: Case): string -> string {
    (key: string) => NewKey(c, key)
  }

  /** `toSnakeCase`, `toLispCase` and `toCamelCase`: a string is itself converted, in a tree only the keys are. */
  function ToCase(c: Case, t: Json): Json {
    if t.Str? then Str(NewKey(c, t.s)) else Convert(Converter(c), t)
  }

  /** The keys that survive as keys of an object: snake case turns one that survives as a string into a key that cannot
      be assigned. */
  predicate SurvivesAsKey(c: Case, key: string)
    requires !c.Camel?
  {
    Survives(c, key) && !(c.Snake? && key == "_Proto__")
  }

  function Survivors(c: Case): string -> bool
    requires !c.Camel?
  {
    (key: string) => SurvivesAsKey(c, key)
  }

  predicate AllKeysSurvive(c: Case, t: Json)
    requires !c.Camel?
  {
    AllKeys(t, Survivors(c))
  }

  /** Camel case makes one key of the key that cannot be assigned. */
  lemma CamelOfProto()
    ensures JoinCapitals(PROTO) == "_Proto__"
  {
    JoinCapitalsP();
    assert PROTO[1..] == "_proto__";
  }

  lemma JoinCapitalsP()
    ensures JoinCapitals("_proto__") == "Proto__"
  {
    JoinPassesRoto();
    assert "_proto__"[2..] == "roto__" && Upper('p') == 'P';
  }

  lemma JoinPassesRoto()
    ensures JoinCapitals("roto__") == "roto__"
  {
    JoinPassesLetters("roto", "__");
    assert "roto__" == "roto" + "__" && "__"[1..] == "_" && "_"[1..] == "";
    assert JoinCapitals("__") == ['_'] + JoinCapitals("_");
  }

  lemma SplitsSecond(s: string, sep: char)
    requires |s| >= 2 && !IsUpper(s[0]) && IsUpper(s[1]) && forall i :: 2 <= i < |s| ==> !IsUpper(s[i])
    ensures SplitCapitals(s, sep) == [s[0], sep, Lower(s[1])] + s[2..]
  {
    assert s == [s[0]] + ([s[1]] + s[2..]);
    SplitPasses(s[0], [s[1]] + s[2..], sep);
    SplitsCapital(s[1], s[2..], sep);
    SplitPassesLower(s[2..], sep);
  }

  lemma SplitsCapital(first: char, rest: string, sep: char)
    requires IsUpper(first) && (rest != "" ==> !IsUpper(rest[0]))
    ensures SplitCapitals([first] + rest, sep) == [sep, Lower(first)] + SplitCapitals(rest, sep)
  {
    var s := [first] + rest;
    assert s[1..] == rest;
    assert UpperRun(s) == 1 && s[..1] == [first];
    assert LowerAll([first]) == [Lower(first)];
  }

  /** And snake case makes it of that one; lisp case does not. */
  lemma SnakeOfProto(key: string)
    requires key == "_Proto__"
    ensures NewKey(Snake, key) == PROTO
  {
    SplitsSecond(key, '_');
  }

  lemma LispOfProto(key: string)
    requires key == "_Proto__"
    ensures NewKey(Lisp, key) != PROTO
  {
    SplitsSecond(key, '-');
    assert NewKey(Lisp, key)[1] == '-';
  }

  lemma {:induction false} SplitPassesLower(s: string, sep: char)
    requires forall i :: 0 <= i < |s| ==> !IsUpper(s[i])
    ensures SplitCapitals(s, sep) == s
  {
    if s != "" {
      SplitPassesLower(s[1..], sep);
    }
  }

  /** It is made of no other key that survives. */
  lemma OnlyProtoIsLost(c: Case, key: string)
    requires !c.Camel? && Survives(c, key)
    ensures NewKey(c, key) == PROTO ==> key == "_Proto__"
    ensures key != PROTO
  {
    KeyRoundTrip(c, key);
    CamelOfProto();
    CamelKeepsPrefix(NewKey(c, key));
    if key == PROTO {
      assert IsSeparator(key[1]) && IsLower(key[1 + 1]);
    }
  }

  lemma SurvivorsAreAssigned(c: Case, key: string)
    requires !c.Camel? && Survives(c, key)
    ensures NewKey(c, key) == PROTO <==> !SurvivesAsKey(c, key)
  {
    OnlyProtoIsLost(c, key);
    if key == "_Proto__" {
      SnakeOfProto(key);
      LispOfProto(key);
    }
  }

  lemma CaseLightens(c: Case)
    requires !c.Camel?
    ensures Lightens(Converter(c), Converter(Camel), Survivors(c), KeyWeight)
  {
    forall key | Survivors(c)(key)
      ensures Converter(Camel)(Converter(c)(key)) == key && Converter(c)(key) != PROTO && key != PROTO
    {
      KeyRoundTrip(c, key);
      OnlyProtoIsLost(c, key);
      SurvivorsAreAssigned(c, key);
    }
    forall key | !Survivors(c)(key)
      ensures KeyWeight(Converter(Camel)(Converter(c)(key))) < KeyWeight(key) || Converter(c)(key) == PROTO
    {
      LostKeyIsLighter(c, key);
      if Survives(c, key) {
        SurvivorsAreAssigned(c, key);
      }
    }
  }

  /** For every tree, `toCamelCase` undoes `toSnakeCase` (or `toLispCase`) exactly when every key in it survives; for a
      string argument, exactly when that string does. */
  lemma RoundTrip(c: Case, t: Json)
    requires !c.Camel? && WellFormed(t)
    ensures ToCase(Camel, ToCase(c, t)) == t <==> if t.Str? then Survives(c, t.s) else AllKeysSurvive(c, t)
  {
    if t.Str? {
      KeyRoundTrip(c, t.s);
    } else {
      CaseLightens(c);
      TreeRoundTripIff(Converter(c), Converter(Camel), Survivors(c), KeyWeight, t);
    }
  }

  /** And on the way no two keys of an object collide, when they survive: each property keeps its place. */
  lemma SurvivorsDoNotCollide(c: Case, fields: seq<Field>)
    requires !c.Camel? && DistinctKeys(fields) && forall i :: 0 <= i < |fields| ==> SurvivesAsKey(c, fields[i].key)
    ensures |ConvertFields(Converter(c), fields)| == |fields| && DistinctKeys(ConvertFields(Converter(c), fields))
    ensures forall i :: 0 <= i < |fields| ==>
            ConvertFields(Converter(c), fields)[i] == ConvertField(Converter(c), fields[i])
  {
    forall i | 0 <= i < |fields|
      ensures Converter(Camel)(Converter(c)(fields[i].key)) == fields[i].key && Converter(c)(fields[i].key) != PROTO
    {
      KeyRoundTrip(c, fields[i].key);
      SurvivorsAreAssigned(c, fields[i].key);
    }
    UndoneKeysStayApart(Converter(c), Converter(Camel), fields);
    NoCollision(Converter(c), fields);
  }

  lemma SnakeCaseLoses(key: string, v: Json)
    requires NewKey(Snake, key) == PROTO
    ensures ToCase(Snake, Obj([Field(key, v)])) == Obj([])
  {
    LostField(Converter(Snake), Field(key, v));
  }

  lemma ProtoSurvives(key: string)
    requires key == "_Proto__"
    ensures Survives(Snake, key)
  {
  }

  /** The key that survives as a string but not as a key: `{"_Proto__": v}` in snake case is the empty object. */
  lemma SnakeCaseLosesProto(key: string, v: Json)
    requires key == "_Proto__"
    ensures Survives(Snake, key)
    ensures ToCase(Snake, Obj([Field(key, v)])) == Obj([])
  {
    ProtoSurvives(key);
    SnakeOfProto(key);
    SnakeCaseLoses(key, v);
  }
}
