/**
 classify_tool_result (agents/utils.py): did the provider fail, answer with nothing, or answer with content?
 */
module ToolResults {
  import opened Options
  import opened Compaction

  datatype Outcome = Failed | EmptySuccess | Content

  /** The texts of floats that are no number of the decimal system; all of them are true. */
  predicate NotFinite(token: string) {
    token == "inf" || token == "-inf" || token == "nan"
  }

  /** Python's truth of a JSON value; a number is zero when its text has no digit but zero and is no infinity or NaN. */
  predicate Truthy(v: Value) {
    match v
    case Null => false
    case Flag(b) => b
    case Number(token) => NotFinite(token) || exists i | 0 <= i < |token| :: '1' <= token[i] <= '9'
    case Text(s) => s != ""
    case List(items) => items != []
    case Dict(entries) => entries != []
  }

  function Get(entries: seq<Entry>, key: string, missing: Value): Value {
    var found := Lookup(entries, key);
    if found.Some? then found.value else missing
  }

  /** Where a provider may put its answer, in the order the fields are tried. */
  function PayloadKeys(): seq<string> {
    ["content", "result", "results", "routes", "data", "text"]
  }

  /** The first truthy field, else the last one tried. */
  function FirstTruthy(entries: seq<Entry>, keys: seq<string>): Value
    requires keys != []
  {
    var value := Get(entries, keys[0], Null);
    if Truthy(value) || |keys| == 1 then value else FirstTruthy(entries, keys[1..])
  }

  /**
   Lower-casing, as far as the texts below can tell: the Kelvin sign is the one letter outside ASCII whose lower case is
   an ASCII letter and nothing more.
   */
  function Lower(s: string): string {
    seq(|s|, i requires 0 <= i < |s| =>
      if 'A' <= s[i] <= 'Z' then (s[i] as int + 32) as char else if s[i] == '\U{212A}' then 'k' else s[i])
  }

  function LStrip(s: string): string {
    if s != "" && IsSpace(s[0]) then LStrip(s[1..]) else s
  }

  predicate IsErrorText(s: string) {
    var lowered := Lower(LStrip(RStrip(s)));
    "搜索出错" <= lowered || "search error" <= lowered || "error:" <= lowered || "duckduckgo search failed" <= lowered
  }

  /** Some text at any depth reads as an error. */
  predicate ContainsErrorText(v: Value) {
    match v
    case Text(s) => IsErrorText(s)
    case List(items) => exists i | 0 <= i < |items| :: ContainsErrorText(items[i])
    case Dict(entries) => exists i | 0 <= i < |entries| :: ContainsErrorText(entries[i].value)
    case _ => false
  }

  /** The letters of the text, up to ASCII case and the Kelvin sign, are those of this lower-case text. */
  predicate ReadsAs(s: string, lower: string) {
    |s| == |lower| && forall i | 0 <= i < |s| ::
      || (s[i] == lower[i] && !('A' <= s[i] <= 'Z'))
      || ('a' <= lower[i] <= 'z' && s[i] as int + 32 == lower[i] as int)
      || (s[i] == '\U{212A}' && lower[i] == 'k')
  }

  predicate IsPhrase(p: string) {
    p in ["搜索出错", "search error", "error:", "duckduckgo search failed"]
  }

  predicate Blank(s: string) {
    forall i | 0 <= i < |s| :: IsSpace(s[i])
  }

  /** Behind white space the text begins with one of the four phrases that report a failed search, in any case. */
  ghost predicate ReportsError(s: string) {
    exists i, p | 0 <= i <= |s| && IsPhrase(p) :: StandsAt(s, i, p)
  }

  predicate StandsAt(s: string, i: nat, p: string)
    requires i <= |s|
  {
    Blank(s[..i]) && i + |p| <= |s| && ReadsAs(s[i..i + |p|], p)
  }

  lemma LowerReads(s: string, p: string)
    requires forall i | 0 <= i < |p| :: !('A' <= p[i] <= 'Z') && p[i] != '\U{212A}'
    ensures p <= Lower(s) <==> |p| <= |s| && ReadsAs(s[..|p|], p)
  {
    if |p| <= |s| {
      if p <= Lower(s) {
        forall i | 0 <= i < |p|
          ensures Lower(s)[i] == p[i]
        {
          assert Lower(s)[..|p|][i] == p[i];
        }
      }
      if ReadsAs(s[..|p|], p) {
        forall i | 0 <= i < |p|
          ensures Lower(s)[i] == p[i]
        {
          assert s[..|p|][i] == s[i];
        }
        assert Lower(s)[..|p|] == p;
      }
    }
  }

  lemma {:induction false} LStripMeans(s: string) returns (i: nat)
    ensures i <= |s| && LStrip(s) == s[i..] && Blank(s[..i]) && (i < |s| ==> !IsSpace(s[i]))
  {
    i := 0;
    if s != "" && IsSpace(s[0]) {
      var k := LStripMeans(s[1..]);
      i := k + 1;
      assert s[1..][k..] == s[k + 1..];
      forall j | 0 <= j < i
        ensures IsSpace(s[j])
      {
        if j > 0 { assert s[1..][..k][j - 1] == s[j]; }
      }
    }
  }

  lemma SpacesDoNotRead(c: char, p: string)
    requires IsPhrase(p)
    ensures p != "" && (forall i | 0 <= i < |p| :: !('A' <= p[i] <= 'Z') && p[i] != '\U{212A}')
    ensures !IsSpace(p[0]) && !IsSpace(p[|p| - 1])
    ensures IsSpace(c) ==> !ReadsAs([c], p[..1]) && !ReadsAs([c], p[|p| - 1..])
  {
  }

  lemma ErrorPhrases(s: string)
    ensures IsErrorText(s) <==> exists p | IsPhrase(p) :: p <= Lower(LStrip(RStrip(s)))
  {
    hide Lower, LStrip, RStrip;
    assert IsPhrase("搜索出错") && IsPhrase("search error") && IsPhrase("error:") && IsPhrase("duckduckgo search failed");
  }

  lemma IsErrorTextMeans(s: string)
    ensures IsErrorText(s) <==> ReportsError(s)
  {
    hide Lower, LStrip, RStrip, IsSpace, StandsAt, IsPhrase, IsErrorText, Blank;
    ErrorPhrases(s);
    var kept := RStrip(s);
    var start := LStripMeans(kept);
    var text := kept[start..];
    forall p | IsPhrase(p)
      ensures p <= Lower(text) <==>
                exists i | 0 <= i <= |s| :: StandsAt(s, i, p)
    {
      PhraseStands(s, kept, start, p);
    }
  }

  lemma PhraseStands(s: string, kept: string, start: nat, p: string)
    requires kept == RStrip(s) && start <= |kept| && Blank(kept[..start])
    requires start < |kept| ==> !IsSpace(kept[start])
    requires IsPhrase(p)
    ensures p <= Lower(kept[start..]) <==> exists i | 0 <= i <= |s| :: StandsAt(s, i, p)
  {
    hide Lower, LStrip, RStrip, IsSpace, StandsAt, IsPhrase, Blank;
    SpacesDoNotRead(' ', p);
    if p <= Lower(kept[start..]) {
      PhraseThere(s, kept, start, p);
    }
    if i :| 0 <= i <= |s| && StandsAt(s, i, p) {
      PhraseFound(s, kept, start, i, p);
    }
  }

  lemma PhraseThere(s: string, kept: string, start: nat, p: string)
    requires kept <= s && start <= |kept| && Blank(kept[..start]) && p <= Lower(kept[start..])
    requires IsPhrase(p)
    ensures StandsAt(s, start, p)
  {
    hide Lower, IsSpace, IsPhrase, ReadsAs, Blank;
    PhraseReads(kept[start..], p);
    SameSlices(s, kept, start, |p|);
  }

  /** Where a phrase stands in the text, it stands in what is left of it. */
  lemma StandsInKept(s: string, kept: string, i: nat, p: string)
    requires kept <= s && i + |p| <= |kept| && StandsAt(s, i, p)
    ensures Blank(kept[..i]) && ReadsAs(kept[i..][..|p|], p) && ReadsAs(kept[i..i + |p|], p)
  {
    hide ReadsAs, Blank;
    SameSlices(s, kept, i, |p|);
  }

  lemma PhraseFound(s: string, kept: string, start: nat, i: nat, p: string)
    requires kept == RStrip(s) && start <= |kept| && Blank(kept[..start])
    requires start < |kept| ==> !IsSpace(kept[start])
    requires IsPhrase(p) && i <= |s| && StandsAt(s, i, p)
    ensures p <= Lower(kept[start..])
  {
    hide *;
    StandsFits(s, i, p);
    PhraseIsKept(s, kept, i, p);
    StandsInKept(s, kept, i, p);
    PhraseStartsText(kept, start, i, p);
    PhraseReads(kept[start..], p);
  }

  lemma StandsFits(s: string, i: nat, p: string)
    requires i <= |s| && StandsAt(s, i, p)
    ensures i + |p| <= |s| && ReadsAs(s[i..i + |p|], p)
  {
    hide ReadsAs, Blank;
  }

  lemma PhraseReads(s: string, p: string)
    requires IsPhrase(p)
    ensures p <= Lower(s) <==> |p| <= |s| && ReadsAs(s[..|p|], p)
  {
    hide Lower, ReadsAs;
    SpacesDoNotRead(' ', p);
    LowerReads(s, p);
  }

  lemma SameSlices(s: string, kept: string, i: nat, n: nat)
    requires kept <= s && i + n <= |kept|
    ensures kept[..i] == s[..i] && kept[i..i + n] == kept[i..][..n] == s[i..i + n]
  {
  }

  /** The last letter of a phrase is no space, so stripping at the end leaves it. */
  lemma PhraseIsKept(s: string, kept: string, i: nat, p: string)
    requires kept == RStrip(s) && i + |p| <= |s| && ReadsAs(s[i..i + |p|], p)
    requires IsPhrase(p)
    ensures i + |p| <= |kept|
  {
    hide RStrip, IsSpace, IsPhrase, ReadsAs;
    SpacesDoNotRead(' ', p);
    var k := i + |p| - 1;
    SpacesDoNotRead(s[k], p);
    LastReads(s[i..i + |p|], p);
    if |kept| <= k { StrippedIsSpace(s, kept, k); }
  }

  lemma StrippedIsSpace(s: string, kept: string, k: nat)
    requires kept == RStrip(s) && |kept| <= k < |s|
    ensures IsSpace(s[k])
  {
  }

  lemma LastReads(s: string, p: string)
    requires ReadsAs(s, p) && p != ""
    ensures ReadsAs([s[|p| - 1]], p[|p| - 1..]) && ReadsAs([s[0]], p[..1])
  {
  }

  lemma PhraseStartsText(kept: string, start: nat, i: nat, p: string)
    requires start <= |kept| && Blank(kept[..start]) && (start < |kept| ==> !IsSpace(kept[start]))
    requires i + |p| <= |kept| && Blank(kept[..i]) && ReadsAs(kept[i..i + |p|], p)
    requires IsPhrase(p)
    ensures i == start
  {
    var c := kept[i];
    SpacesDoNotRead(c, p);
    hide IsSpace, IsPhrase, ReadsAs;
    LastReads(kept[i..i + |p|], p);
    assert forall j | 0 <= j < start :: kept[..start][j] == kept[j];
    assert forall j | 0 <= j < i :: kept[..i][j] == kept[j];
  }

  /** The text stands somewhere in the value, at any depth; keys do not count. */
  ghost predicate HoldsText(v: Value, t: string) {
    match v
    case Text(s) => s == t
    case List(items) => exists x | x in items :: HoldsText(x, t)
    case Dict(entries) => exists e | e in entries :: HoldsText(e.value, t)
    case _ => false
  }

  /** A value holds an error exactly when some text in it, at any depth, reports one. */
  lemma {:induction false} ErrorsAreFound(v: Value)
    ensures ContainsErrorText(v) <==> exists t :: HoldsText(v, t) && ReportsError(t)
  {
    hide IsErrorText, ReportsError;
    match v
    case Text(s) =>
      IsErrorTextMeans(s);
      assert HoldsText(v, s);
    case List(items) =>
      forall x | x in items
        ensures ContainsErrorText(x) <==> exists t :: HoldsText(x, t) && ReportsError(t)
      {
        ErrorsAreFound(x);
      }
      ErrorsOfItems(items);
    case Dict(entries) =>
      forall e | e in entries
        ensures ContainsErrorText(e.value) <==> exists t :: HoldsText(e.value, t) && ReportsError(t)
      {
        ErrorsAreFound(e.value);
      }
      ErrorsOfEntries(entries);
    case _ =>
  }

  lemma ErrorsOfItems(items: seq<Value>)
    requires forall x | x in items :: ContainsErrorText(x) <==> exists t :: HoldsText(x, t) && ReportsError(t)
    ensures ContainsErrorText(List(items)) <==> exists t :: HoldsText(List(items), t) && ReportsError(t)
  {
    hide IsErrorText, ReportsError;
    if i :| 0 <= i < |items| && ContainsErrorText(items[i]) {
      var t :| HoldsText(items[i], t) && ReportsError(t);
      assert HoldsText(List(items), t);
    }
    if t :| HoldsText(List(items), t) && ReportsError(t) {
      var x :| x in items && HoldsText(x, t);
      assert ContainsErrorText(x);
    }
  }

  lemma ErrorsOfEntries(entries: seq<Entry>)
    requires forall e | e in entries ::
               ContainsErrorText(e.value) <==> exists t :: HoldsText(e.value, t) && ReportsError(t)
    ensures ContainsErrorText(Dict(entries)) <==> exists t :: HoldsText(Dict(entries), t) && ReportsError(t)
  {
    hide IsErrorText, ReportsError;
    if i :| 0 <= i < |entries| && ContainsErrorText(entries[i].value) {
      var t :| HoldsText(entries[i].value, t) && ReportsError(t);
      assert HoldsText(Dict(entries), t);
    }
    if t :| HoldsText(Dict(entries), t) && ReportsError(t) {
      var e :| e in entries && HoldsText(e.value, t);
      assert ContainsErrorText(e.value);
    }
  }

  predicate AsksUser(entries: seq<Entry>) {
    Lookup(entries, "type") == Some(Text("user_input_required"))
  }

  function Classify(result: Value): Outcome {
    if !result.Dict? || result.entries == [] then Failed
    else if AsksUser(result.entries) then Content
    else if !Truthy(Get(result.entries, "success", Flag(true))) then Failed
    else
      var payload := FirstTruthy(result.entries, PayloadKeys());
      if ContainsErrorText(payload) then Failed
      else if !Truthy(payload) then EmptySuccess
      else Content
  }

  /* ----- What the three outcomes mean ----- */

  predicate AllFalsy(entries: seq<Entry>, keys: seq<string>) {
    forall i | 0 <= i < |keys| :: !Truthy(Get(entries, keys[i], Null))
  }

  lemma {:induction false} FirstTruthyMeans(entries: seq<Entry>, keys: seq<string>)
    requires keys != []
    ensures Truthy(FirstTruthy(entries, keys)) <==> !AllFalsy(entries, keys)
    ensures !AllFalsy(entries, keys) ==>
              exists i | 0 <= i < |keys| ::
                FirstTruthy(entries, keys) == Get(entries, keys[i], Null) && AllFalsy(entries, keys[..i])
  {
    hide Truthy, Get;
    if Truthy(Get(entries, keys[0], Null)) {
      assert AllFalsy(entries, keys[..0]);
    } else if |keys| > 1 {
      FirstTruthyMeans(entries, keys[1..]);
      assert keys == [keys[0]] + keys[1..];
      if !AllFalsy(entries, keys) {
        var i :| 0 <= i < |keys[1..]| && FirstTruthy(entries, keys[1..]) == Get(entries, keys[1..][i], Null)
            && AllFalsy(entries, keys[1..][..i]);
        assert keys[i + 1] == keys[1..][i];
        assert keys[..i + 1] == [keys[0]] + keys[1..][..i];
      }
    }
  }

  /** Nothing is not an error: a falsy value holds no error text. */
  lemma FalsyHoldsNoError(v: Value)
    requires !Truthy(v)
    ensures !ContainsErrorText(v)
  {
    if v.Text? {
      assert RStrip(v.s) == "" && LStrip("") == "" && Lower("") == "";
    }
  }

  /** A value that counts as nothing: none, no, zero, or empty. */
  predicate IsNothing(v: Value) {
    || v == Null || v == Flag(false) || v == Text("") || v == List([]) || v == Dict([])
    || (v.Number? && v.token !in ["inf", "-inf", "nan"] && forall c | c in v.token :: !('1' <= c <= '9'))
  }

  lemma NothingIsFalsy(v: Value)
    ensures IsNothing(v) <==> !Truthy(v)
  {
    if v.Number? {
      assert forall i | 0 <= i < |v.token| :: v.token[i] in v.token;
    }
  }

  /** The first of the fields that holds something: this one does, and none before it. */
  ghost predicate HoldsFirst(entries: seq<Entry>, fields: seq<string>, i: nat) {
    && i < |fields| && !IsNothing(Get(entries, fields[i], Null))
    && forall j | 0 <= j < i :: IsNothing(Get(entries, fields[j], Null))
  }

  lemma FirstIsHeld(entries: seq<Entry>, fields: seq<string>)
    requires fields != []
    ensures AllFalsy(entries, fields) <==> forall i | 0 <= i < |fields| :: IsNothing(Get(entries, fields[i], Null))
    ensures forall i: nat | HoldsFirst(entries, fields, i) ::
              FirstTruthy(entries, fields) == Get(entries, fields[i], Null)
    ensures !AllFalsy(entries, fields) <==> exists i: nat :: HoldsFirst(entries, fields, i)
  {
    forall v
      ensures IsNothing(v) <==> !Truthy(v)
    {
      NothingIsFalsy(v);
    }
    hide Truthy, IsNothing, Get, FirstTruthy;
    FirstTruthyMeans(entries, fields);
    forall i: nat | HoldsFirst(entries, fields, i)
      ensures FirstTruthy(entries, fields) == Get(entries, fields[i], Null)
    {
      assert forall j | 0 <= j < i :: fields[..i][j] == fields[j];
      FirstIsUnique(entries, fields, i);
    }
    if !AllFalsy(entries, fields) {
      var i :| 0 <= i < |fields| && FirstTruthy(entries, fields) == Get(entries, fields[i], Null)
        && AllFalsy(entries, fields[..i]);
      assert forall j | 0 <= j < i :: fields[..i][j] == fields[j];
      assert HoldsFirst(entries, fields, i);
    }
  }

  /**
   A result is an empty success exactly when the provider reports success, asks nothing, and all six fields hold
   nothing; it has content exactly when it asks the user, or reports success and the first field that holds something
   has no text, at any depth, that reports an error; and it failed in every other case.
   */
  lemma OutcomesMean(result: Value)
    ensures Classify(result) == EmptySuccess <==>
              && result.Dict? && result.entries != []
              && Lookup(result.entries, "type") != Some(Text("user_input_required"))
              && !IsNothing(Get(result.entries, "success", Flag(true)))
              && forall f | f in ["content", "result", "results", "routes", "data", "text"] ::
                   IsNothing(Get(result.entries, f, Null))
    ensures Classify(result) == Content <==>
              && result.Dict? && result.entries != []
              && (|| Lookup(result.entries, "type") == Some(Text("user_input_required"))
                  || (&& !IsNothing(Get(result.entries, "success", Flag(true)))
                      && var fields := ["content", "result", "results", "routes", "data", "text"];
                         exists i: nat :: HoldsFirst(result.entries, fields, i)
                           && forall t :: HoldsText(Get(result.entries, fields[i], Null), t) ==> !ReportsError(t)))
  {
    hide Truthy, Get, ContainsErrorText, HoldsText, ReportsError, IsNothing, FirstTruthy, AllFalsy, HoldsFirst;
    if result.Dict? {
      var fields := ["content", "result", "results", "routes", "data", "text"];
      assert PayloadKeys() == fields;
      FirstIsHeld(result.entries, fields);
      FieldsListed(result.entries);
      var payload := FirstTruthy(result.entries, fields);
      NothingIsFalsy(payload);
      NothingIsFalsy(Get(result.entries, "success", Flag(true)));
      ErrorsAreFound(payload);
      FirstTruthyMeans(result.entries, fields);
      if !Truthy(payload) { FalsyHoldsNoError(payload); }
      forall i: nat | HoldsFirst(result.entries, fields, i)
        ensures i < |fields|
      {
        FirstInRange(result.entries, fields, i);
      }
    }
  }

  lemma FirstInRange(entries: seq<Entry>, fields: seq<string>, i: nat)
    requires HoldsFirst(entries, fields, i)
    ensures i < |fields|
  {
  }

  lemma FieldsListed(entries: seq<Entry>)
    ensures var fields := ["content", "result", "results", "routes", "data", "text"];
            (forall i | 0 <= i < |fields| :: IsNothing(Get(entries, fields[i], Null))) <==>
              forall f | f in fields :: IsNothing(Get(entries, f, Null))
  {
    hide IsNothing, Get;
  }

  /** An error text in any field after the first that holds something goes unnoticed. */
  lemma LaterErrorIsContent(entries: seq<Entry>, i: nat, j: nat)
    requires i < j < |PayloadKeys()| && !AsksUser(entries) && Truthy(Get(entries, "success", Flag(true)))
    requires AllFalsy(entries, PayloadKeys()[..i])
    requires Truthy(Get(entries, PayloadKeys()[i], Null)) && !ContainsErrorText(Get(entries, PayloadKeys()[i], Null))
    requires ContainsErrorText(Get(entries, PayloadKeys()[j], Null))
    ensures Classify(Dict(entries)) == Content
  {
    hide ContainsErrorText, AsksUser, FirstTruthy;
    var keys := PayloadKeys();
    FirstTruthyMeans(entries, keys);
    FirstIsUnique(entries, keys, i);
    SomeEntry(entries, keys[i]);
    hide Truthy, Get, PayloadKeys;
  }

  lemma {:induction false} FirstIsUnique(entries: seq<Entry>, keys: seq<string>, i: nat)
    requires i < |keys| && AllFalsy(entries, keys[..i]) && Truthy(Get(entries, keys[i], Null))
    ensures !AllFalsy(entries, keys) && FirstTruthy(entries, keys) == Get(entries, keys[i], Null)
    decreases i
  {
    hide Truthy, Get;
    if i > 0 {
      assert keys[..i][0] == keys[0];
      var before := keys[1..][..i - 1];
      forall k | 0 <= k < |before|
        ensures !Truthy(Get(entries, before[k], Null))
      {
        assert before[k] == keys[..i][k + 1];
      }
      FirstIsUnique(entries, keys[1..], i - 1);
    }
  }

  lemma SomeEntry(entries: seq<Entry>, key: string)
    requires Truthy(Get(entries, key, Null))
    ensures entries != []
  {
  }
}
