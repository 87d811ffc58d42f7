/**
 Round names of workers (agents/utils.py): printing, stripping, reading back, and the two lookups built on them.

 A digit is an ASCII digit.
 */
module RoundNames {
  import opened Options

  predicate IsDigit(c: char) { '0' <= c <= '9' }

  predicate IsNumeral(s: string) {
    s != "" && forall i | 0 <= i < |s| :: IsDigit(s[i])
  }

  function DigitChar(d: nat): (c: char)
    requires d < 10
    ensures IsDigit(c) && DigitValue(c) == d
  {
    ('0' as int + d) as char
  }

  /** Python's str of a non-negative int. */
  function Print(n: nat): (s: string)
    ensures IsNumeral(s)
  {
    if n < 10 then [DigitChar(n)] else Print(n / 10) + [DigitChar(n % 10)]
  }

  function DigitValue(c: char): nat
    requires IsDigit(c)
  {
    c as int - '0' as int
  }

  function PrintInt(n: int): string {
    if n >= 0 then Print(n) else "-" + Print(-n)
  }

  /** Python's int of a numeral. */
  function Read(s: string): nat
    requires forall i | 0 <= i < |s| :: IsDigit(s[i])
  {
    if s == "" then 0 else 10 * Read(s[..|s| - 1]) + DigitValue(s[|s| - 1])
  }

  lemma {:induction false} ReadPrint(n: nat)
    ensures Read(Print(n)) == n
  {
    if n >= 10 {
      ReadPrint(n / 10);
      assert Print(n)[..|Print(n)| - 1] == Print(n / 10);
    } else {
      assert Print(n)[..0] == "";
    }
  }

  /* ----- The _r<digits> suffix ----- */

  function NumeralLength(s: string): (k: nat)
    ensures k <= |s|
    ensures forall i | |s| - k <= i < |s| :: IsDigit(s[i])
    ensures k < |s| ==> !IsDigit(s[|s| - k - 1])
  {
    if s != "" && IsDigit(s[|s| - 1]) then NumeralLength(s[..|s| - 1]) + 1 else 0
  }

  datatype Parts = Parts(base: string, numeral: string)

  /** The only way to read a text as a base, "_r" and a numeral. */
  function Split(s: string): (r: Option<Parts>)
    ensures r.Some? ==> IsNumeral(r.value.numeral) && s == r.value.base + "_r" + r.value.numeral
  {
    var n := |s| - NumeralLength(s);
    if n == |s| || n < 2 || s[n - 2..n] != "_r" then None
    else
      assert s == s[..n - 2] + s[n - 2..n] + s[n..];
      Some(Parts(s[..n - 2], s[n..]))
  }

  lemma SplitIsUnique(base: string, numeral: string)
    requires IsNumeral(numeral)
    ensures Split(base + "_r" + numeral) == Some(Parts(base, numeral))
  {
    var s := base + "_r" + numeral;
    assert s[|base| + 1] == 'r' && s[|base|..|base| + 2] == "_r" && s[|base| + 2..] == numeral && s[..|base|] == base;
    assert forall i | |base| + 2 <= i < |s| :: s[i] == numeral[i - |base| - 2];
    assert !IsDigit('r');
  }

  function MakeRoundName(base: string, round: int): string {
    base + "_r" + PrintInt(round)
  }

  /** re.sub of `_r\d+$`: the pattern also matches just before a final newline. */
  function StripRoundSuffix(name: string): string {
    var newline := name != "" && name[|name| - 1] == '\n';
    var body := if newline then name[..|name| - 1] else name;
    match Split(body)
    case Some(parts) => if newline then parts.base + "\n" else parts.base
    case None => name
  }

  lemma StripOf(base: string, numeral: string)
    requires IsNumeral(numeral)
    ensures StripRoundSuffix(base + "_r" + numeral) == base
    ensures StripRoundSuffix(base + "_r" + numeral + "\n") == base + "\n"
  {
    SplitIsUnique(base, numeral);
    var whole := base + "_r" + numeral;
    assert whole[|whole| - 1] == numeral[|numeral| - 1] && !IsDigit('\n');
    assert (whole + "\n")[..|whole|] == whole;
    hide Split;
  }

  /** Whatever its base and numeral, a round suffix is stripped, before a final newline too; any other name stays. */
  lemma StripMeans(name: string)
    ensures forall base, numeral | IsNumeral(numeral) && name == base + "_r" + numeral :: StripRoundSuffix(name) == base
    ensures forall base, numeral | IsNumeral(numeral) && name == base + "_r" + numeral + "\n" ::
              StripRoundSuffix(name) == base + "\n"
    ensures StripRoundSuffix(name) != name ==>
              exists base, numeral :: IsNumeral(numeral) &&
                (name == base + "_r" + numeral || name == base + "_r" + numeral + "\n")
  {
    hide Split, IsNumeral, StripRoundSuffix;
    forall base, numeral | IsNumeral(numeral)
      ensures name == base + "_r" + numeral ==> StripRoundSuffix(name) == base
      ensures name == base + "_r" + numeral + "\n" ==> StripRoundSuffix(name) == base + "\n"
    {
      StripOf(base, numeral);
    }
    if StripRoundSuffix(name) != name {
      var base, numeral := StrippedHasSuffix(name);
    }
  }

  lemma StrippedHasSuffix(name: string) returns (base: string, numeral: string)
    requires StripRoundSuffix(name) != name
    ensures IsNumeral(numeral) && (name == base + "_r" + numeral || name == base + "_r" + numeral + "\n")
  {
    hide IsNumeral, Split, StripRoundSuffix;
    var body := StrippedBody(name);
    base, numeral := Split(body).value.base, Split(body).value.numeral;
  }

  /** What is left to split once a final newline is put aside. */
  lemma StrippedBody(name: string) returns (body: string)
    requires StripRoundSuffix(name) != name
    ensures (name == body || name == body + "\n") && Split(body).Some?
  {
    hide Split, IsNumeral;
    var newline := name != "" && name[|name| - 1] == '\n';
    body := if newline then name[..|name| - 1] else name;
    assert newline ==> name == body + "\n";
  }

  lemma SplitNegative(base: string, n: nat)
    ensures Split(base + "_r" + ("-" + Print(n))).None?
  {
    var s := base + "_r" + ("-" + Print(n));
    assert s[|base| + 2] == '-' && !IsDigit('-');
    assert s[|base| + 3..] == Print(n);
    assert forall i | |base| + 3 <= i < |s| :: s[i] == Print(n)[i - |base| - 3];
    var k := |s| - NumeralLength(s);
    assert k > |base| + 2;
    assert s[k - 2..k][1] == '-';
  }

  /** Stripping undoes naming exactly for the rounds that are not negative. */
  lemma StripUndoesMake(base: string, round: int)
    ensures StripRoundSuffix(MakeRoundName(base, round)) == base <==> round >= 0
  {
    var name := MakeRoundName(base, round);
    var digits := Print(if round >= 0 then round else -round);
    assert name[|name| - 1] == digits[|digits| - 1];
    if round >= 0 {
      SplitIsUnique(base, digits);
    } else {
      SplitNegative(base, -round);
      assert |name| > |base|;
    }
  }

  /** assignment_research_round: fullmatch of `.+_r(\d+)`, where a dot is anything but a newline. */
  function ResearchRound(key: string): nat {
    match Split(key)
    case Some(parts) =>
      if parts.base != "" && '\n' !in parts.base && Read(parts.numeral) > 0 then Read(parts.numeral) - 1 else 0
    case None => 0
  }

  /** A key counts as a research round exactly when its base is one line of text: then one less than its numeral. */
  lemma ResearchRoundMeans(key: string)
    ensures forall base, numeral | IsNumeral(numeral) && key == base + "_r" + numeral ::
              ResearchRound(key)
              == if base != "" && '\n' !in base && Read(numeral) > 0 then Read(numeral) - 1 else 0
    ensures ResearchRound(key) > 0 ==> exists base, numeral :: IsNumeral(numeral) && key == base + "_r" + numeral
  {
    forall base, numeral | IsNumeral(numeral) && key == base + "_r" + numeral
      ensures ResearchRound(key)
              == if base != "" && '\n' !in base && Read(numeral) > 0 then Read(numeral) - 1 else 0
    {
      SplitIsUnique(base, numeral);
    }
    if ResearchRound(key) > 0 {
      var parts := Split(key).value;
      assert IsNumeral(parts.numeral) && key == parts.base + "_r" + parts.numeral;
    }
  }

  /** The round read back is one less than the one printed when the base is a line of text, and zero otherwise. */
  lemma ResearchRoundOfMake(base: string, round: int)
    ensures ResearchRound(MakeRoundName(base, round))
         == if base != "" && '\n' !in base && round > 0 then round - 1 else 0
  {
    if round >= 0 {
      SplitIsUnique(base, Print(round));
      ReadPrint(round);
    } else {
      SplitNegative(base, -round);
    }
  }

  /* ----- Looking up a worker's assignment ----- */

  datatype Assignment = Assignment(key: string, blankObjective: bool)

  datatype Resolved = Resolved(key: string) | Missing(key: string)

  /** re.match of `^base_r(\d+)$`: the round of a key of this base, a final newline allowed. */
  function RoundOf(base: string, key: string): Option<nat> {
    var body := if key != "" && key[|key| - 1] == '\n' then key[..|key| - 1] else key;
    match Split(body)
    case Some(parts) => if parts.base == base then Some(Read(parts.numeral)) else None
    case None => None
  }

  /** The key is the base, "_r" and a numeral of this value; a final newline is let pass. */
  ghost predicate IsRoundKey(base: string, key: string, round: nat) {
    exists numeral :: IsNumeral(numeral) && Read(numeral) == round && Spells(base, key, numeral)
  }

  predicate Spells(base: string, key: string, numeral: string) {
    key == base + "_r" + numeral || key == base + "_r" + numeral + "\n"
  }

  lemma SpellsReads(base: string, key: string, numeral: string)
    requires IsNumeral(numeral) && Spells(base, key, numeral)
    ensures RoundOf(base, key) == Some(Read(numeral))
  {
    var name := base + "_r" + numeral;
    SplitIsUnique(base, numeral);
    assert name[|name| - 1] == numeral[|numeral| - 1];
    assert !IsDigit('\n');
    assert key == name + "\n" ==> key[..|key| - 1] == name;
  }

  /** A key is looked up under a round exactly when it is the base with that round; a key of another base never is. */
  lemma RoundOfMeans(base: string, key: string, round: nat)
    ensures RoundOf(base, key) == Some(round) <==> IsRoundKey(base, key, round)
  {
    hide Split, Read;
    if IsRoundKey(base, key, round) {
      var numeral :| IsNumeral(numeral) && Read(numeral) == round && Spells(base, key, numeral);
      SpellsReads(base, key, numeral);
    }
    if RoundOf(base, key) == Some(round) {
      var newline := key != "" && key[|key| - 1] == '\n';
      var body := if newline then key[..|key| - 1] else key;
      var parts := Split(body).value;
      assert newline ==> key == body + "\n";
      assert IsNumeral(parts.numeral) && Spells(base, key, parts.numeral);
    }
  }

  /** A key printed for a round is looked up under that round. */
  lemma RoundOfMake(base: string, round: nat)
    ensures RoundOf(base, MakeRoundName(base, round)) == Some(round)
  {
    SplitIsUnique(base, Print(round));
    ReadPrint(round);
    var name := MakeRoundName(base, round);
    assert name[|name| - 1] == Print(round)[|Print(round)| - 1];
  }

  /** require_assignment: the key's assignment, if it has an objective. */
  function Require(assignments: seq<Assignment>, key: string): Resolved {
    if Assignment(key, false) in assignments then Resolved(key) else Missing(key)
  }

  function Rounds(assignments: seq<Assignment>, base: string): (r: seq<Option<nat>>)
    ensures |r| == |assignments|
  {
    seq(|assignments|, i requires 0 <= i < |assignments| => RoundOf(base, assignments[i].key))
  }

  /** Where the first of the greatest rounds stands. */
  predicate FirstGreatest(rounds: seq<Option<nat>>, at: nat) {
    && at < |rounds| && rounds[at].Some?
    && (forall j | 0 <= j < |rounds| && rounds[j].Some? :: rounds[j].value <= rounds[at].value)
    && (forall j | 0 <= j < at && rounds[j].Some? :: rounds[j].value < rounds[at].value)
  }

  /** Sorting the keys with a round by round, greatest first and stably, and taking the first. */
  method PickGreatest(rounds: seq<Option<nat>>) returns (at: Option<nat>)
    ensures at.Some? ==> at.value < |rounds| && rounds[at.value].Some? && FirstGreatest(rounds, at.value)
    ensures at.None? ==> forall j | 0 <= j < |rounds| :: rounds[j].None?
  {
    at := None;
    for i := 0 to |rounds|
      invariant at.Some? ==> at.value < i && FirstGreatest(rounds[..i], at.value)
      invariant at.None? ==> forall j | 0 <= j < i :: rounds[j].None?
    {
      if rounds[i].Some? && (at.None? || rounds[i].value > rounds[at.value].value) {
        at := Some(i);
      }
    }
    assert rounds[..|rounds|] == rounds;
  }

  ghost predicate HasRound(assignments: seq<Assignment>, base: string) {
    exists j, m: nat | 0 <= j < |assignments| :: IsRoundKey(base, assignments[j].key, m)
  }

  /** The assignment at this place is of this round, no other is of a later one, and no earlier one of the same. */
  ghost predicate IsChosen(assignments: seq<Assignment>, base: string, at: nat, round: nat) {
    && at < |assignments| && IsRoundKey(base, assignments[at].key, round)
    && forall j, m: nat | 0 <= j < |assignments| && IsRoundKey(base, assignments[j].key, m) ::
         m <= round && (j < at ==> m < round)
  }

  /** The key the lookup settles on: the first of the greatest round present, else the base itself. */
  ghost predicate Settles(assignments: seq<Assignment>, base: string, key: string) {
    if HasRound(assignments, base) then
      exists at: nat, round: nat :: IsChosen(assignments, base, at, round) && assignments[at].key == key
    else key == base
  }

  lemma GreatestIsChosen(assignments: seq<Assignment>, base: string, at: nat)
    requires FirstGreatest(Rounds(assignments, base), at)
    ensures IsChosen(assignments, base, at, Rounds(assignments, base)[at].value)
  {
    hide RoundOf, IsRoundKey;
    var rounds := Rounds(assignments, base);
    RoundOfMeans(base, assignments[at].key, rounds[at].value);
    forall j, m: nat | 0 <= j < |assignments| && IsRoundKey(base, assignments[j].key, m)
      ensures m <= rounds[at].value && (j < at ==> m < rounds[at].value)
    {
      RoundOfMeans(base, assignments[j].key, m);
      assert rounds[j] == Some(m);
    }
  }

  lemma NoRoundIsFound(assignments: seq<Assignment>, base: string)
    requires forall j | 0 <= j < |assignments| :: Rounds(assignments, base)[j].None?
    ensures !HasRound(assignments, base)
  {
    hide RoundOf, IsRoundKey;
    forall j, m: nat | 0 <= j < |assignments|
      ensures !IsRoundKey(base, assignments[j].key, m)
    {
      RoundOfMeans(base, assignments[j].key, m);
      assert Rounds(assignments, base)[j].None?;
    }
  }

  /** resolve_agent_assignment: the key settled on, as long as its assignment has an objective. */
  method ResolveAgentAssignment(assignments: seq<Assignment>, base: string) returns (resolved: Resolved)
    ensures Settles(assignments, base, resolved.key)
    ensures resolved.Resolved? <==> Assignment(resolved.key, false) in assignments
  {
    hide RoundOf, IsRoundKey, Rounds, FirstGreatest, IsChosen;
    var rounds := Rounds(assignments, base);
    var at := PickGreatest(rounds);
    resolved := Require(assignments, if at.Some? then assignments[at.value].key else base);
    if at.Some? {
      GreatestIsChosen(assignments, base, at.value);
      ChosenHasRound(assignments, base, at.value, rounds[at.value].value);
    } else {
      NoRoundIsFound(assignments, base);
    }
  }

  lemma ChosenHasRound(assignments: seq<Assignment>, base: string, at: nat, round: nat)
    requires IsChosen(assignments, base, at, round)
    ensures HasRound(assignments, base)
  {
    hide IsRoundKey;
  }

  /* ----- A fresh key for a scoped retry ----- */

  /** The part of a key before the first at-sign. */
  function TaskKey(key: string): (r: string)
    ensures '@' !in r && r <= key && (|r| < |key| ==> key[|r|] == '@') && ('@' !in key ==> r == key)
  {
    if key == "" || key[0] == '@' then "" else [key[0]] + TaskKey(key[1..])
  }

  /** The round a packet key records for the base: 1 for the base itself, else its number. */
  function PacketRound(base: string, key: string): Option<nat> {
    var task := TaskKey(key);
    if task == base then Some(1)
    else match Split(task)
      case Some(parts) => if parts.base == base then Some(Read(parts.numeral)) else None
      case None => None
  }

  function GreatestRound(packets: seq<string>, base: string): Option<nat> {
    if packets == [] then None
    else
      var before, round := GreatestRound(packets[..|packets| - 1], base), PacketRound(base, packets[|packets| - 1]);
      if round.None? || (before.Some? && before.value >= round.value) then before else round
  }

  predicate KeepsResolved(packets: seq<string>, base: string, resolved: string) {
    Split(resolved).Some? && Split(resolved).value.base == base && resolved !in packets
  }

  /** resolve_scoped_research_output_key. */
  method ScopedKey(packets: seq<string>, base: string, resolved: string, scopedRetry: bool) returns (key: string)
    ensures !scopedRetry || KeepsResolved(packets, base, resolved) ==> key == resolved
    ensures scopedRetry && !KeepsResolved(packets, base, resolved) ==>
              var greatest := GreatestRound(packets, base);
              key == MakeRoundName(base, if greatest.Some? then greatest.value + 1 else 2)
  {
    hide *;
    if !scopedRetry || KeepsResolved(packets, base, resolved) { return resolved; }
    var greatest: Option<nat> := None;
    GreatestStart(packets, base);
    for i := 0 to |packets|
      invariant greatest == GreatestRound(packets[..i], base)
    {
      GreatestStep(packets, base, i);
      var round := PacketRound(base, packets[i]);
      if round.Some? && (greatest.None? || greatest.value < round.value) {
        greatest := round;
      }
    }
    assert packets[..|packets|] == packets;
    key := MakeRoundName(base, if greatest.Some? then greatest.value + 1 else 2);
  }

  lemma GreatestStart(packets: seq<string>, base: string)
    ensures GreatestRound(packets[..0], base) == None
  {
  }

  lemma GreatestStep(packets: seq<string>, base: string, i: nat)
    requires i < |packets|
    ensures var before, round := GreatestRound(packets[..i], base), PacketRound(base, packets[i]);
            GreatestRound(packets[..i + 1], base)
            == if round.None? || (before.Some? && before.value >= round.value) then before else round
  {
    hide PacketRound;
    assert packets[..i + 1][..i] == packets[..i];
  }

  /** The round a packet records: its key before any at-sign is the base, for the first, or the base with that round. */
  ghost predicate Records(base: string, key: string, round: nat) {
    || (TaskKey(key) == base && round == 1)
    || exists numeral :: IsNumeral(numeral) && Read(numeral) == round && TaskKey(key) == base + "_r" + numeral
  }

  lemma PacketRoundMeans(base: string, key: string, round: nat)
    ensures PacketRound(base, key) == Some(round) <==> Records(base, key, round)
  {
    var task := TaskKey(key);
    if numeral :| IsNumeral(numeral) && Read(numeral) == round && task == base + "_r" + numeral {
      SplitIsUnique(base, numeral);
      assert |task| > |base|;
    }
  }

  /** The greatest round recorded is recorded, and none greater is; there is none exactly when no packet records one. */
  lemma {:induction false} GreatestMeans(packets: seq<string>, base: string)
    ensures GreatestRound(packets, base) == None <==> forall p, n: nat | p in packets :: !Records(base, p, n)
    ensures var greatest := GreatestRound(packets, base);
            greatest.Some? ==>
              && (exists p | p in packets :: Records(base, p, greatest.value))
              && forall p, n: nat | p in packets && Records(base, p, n) :: n <= greatest.value
  {
    hide PacketRound, Records;
    if packets != [] {
      var init, last := packets[..|packets| - 1], packets[|packets| - 1];
      assert packets == init + [last];
      GreatestMeans(init, base);
      forall n: nat
        ensures PacketRound(base, last) == Some(n) <==> Records(base, last, n)
      {
        PacketRoundMeans(base, last, n);
      }
      var round := PacketRound(base, last);
      if round.Some? { assert Records(base, last, round.value); }
    }
  }

  /** A resolved key is kept exactly when it is the base with some round and not yet in use. */
  lemma KeepsResolvedMeans(packets: seq<string>, base: string, resolved: string)
    ensures KeepsResolved(packets, base, resolved) <==>
              resolved !in packets && exists numeral :: IsNumeral(numeral) && resolved == base + "_r" + numeral
  {
    if numeral :| IsNumeral(numeral) && resolved == base + "_r" + numeral {
      SplitIsUnique(base, numeral);
    }
  }

  lemma {:induction false} GreatestBounds(packets: seq<string>, base: string, key: string)
    requires key in packets && PacketRound(base, key).Some?
    ensures GreatestRound(packets, base).Some? && PacketRound(base, key).value <= GreatestRound(packets, base).value
  {
    hide PacketRound;
    var init, last := packets[..|packets| - 1], packets[|packets| - 1];
    assert packets == init + [last];
    if key in init {
      GreatestBounds(init, base, key);
    }
  }

  lemma {:induction false} AtSignHidesRounds(packets: seq<string>, base: string)
    requires '@' in base
    ensures GreatestRound(packets, base).None?
  {
    if packets != [] {
      AtSignHidesRounds(packets[..|packets| - 1], base);
      var task := TaskKey(packets[|packets| - 1]);
      if Split(task).Some? {
        assert forall c | c in Split(task).value.base :: c in task;
      }
    }
  }

  /**
   The key handed to a scoped retry is new exactly when the base has no at-sign, or its second round is not yet taken:
   rounds of a base with an at-sign are never recognised, so the computed key is always that base's second round.
   */
  lemma ScopedKeyIsNew(packets: seq<string>, base: string, resolved: string, key: string)
    requires KeepsResolved(packets, base, resolved) ==> key == resolved
    requires !KeepsResolved(packets, base, resolved) ==>
               var greatest := GreatestRound(packets, base);
               key == MakeRoundName(base, if greatest.Some? then greatest.value + 1 else 2)
    ensures key !in packets <==>
              || KeepsResolved(packets, base, resolved) || '@' !in base || MakeRoundName(base, 2) !in packets
  {
    if !KeepsResolved(packets, base, resolved) {
      if '@' in base {
        AtSignHidesRounds(packets, base);
      } else if key in packets {
        var greatest := GreatestRound(packets, base);
        var round := if greatest.Some? then greatest.value + 1 else 2;
        MadeKeyIsRecognised(base, round);
        GreatestBounds(packets, base, key);
      }
    }
  }

  lemma MadeKeyIsRecognised(base: string, round: nat)
    requires '@' !in base
    ensures PacketRound(base, MakeRoundName(base, round)) == Some(round)
  {
    SplitIsUnique(base, Print(round));
    ReadPrint(round);
    var name := MakeRoundName(base, round);
    assert '@' !in Print(round);
    assert |name| > |base|;
  }

  /** Once the second round of a base with an at-sign is in use, every further retry of it is handed that same key. */
  lemma AtSignReusesKey(packets: seq<string>, base: string, resolved: string)
    requires '@' in base && MakeRoundName(base, 2) in packets && !KeepsResolved(packets, base, resolved)
    ensures GreatestRound(packets, base).None?
    ensures var greatest := GreatestRound(packets, base);
            MakeRoundName(base, if greatest.Some? then greatest.value + 1 else 2) in packets
  {
    AtSignHidesRounds(packets, base);
    hide MakeRoundName, GreatestRound;
  }
}
