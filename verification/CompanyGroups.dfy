/** Connector settings and the per-company group rules, over any sequence of accepted saves. */
module CompanyGroups {
  import opened Messages

  datatype Transport = LinkedDevice | OfficialTransport | UnsupportedTransport

  datatype Rule = Rule(company: string, enabled: bool, groupId: string, groupName: string)

  /** `throttle` and `retries` are absent when the form field is empty. */
  datatype Settings = Settings(
    enabled: bool, provider: Transport, throttle: Option<int>, retries: Option<int>, rules: seq<Rule>)

  function Clamp(low: int, high: int, x: int): int
    requires low <= high
  {
    if x < low then low else if x > high then high else x
  }

  // ---- validation of a save ----

  function RuleState(r: Rule): (bool, string) { (r.enabled, r.groupId) }

  /** Company to rule; of two rules for a company the later one counts. */
  function StateOf(rules: seq<Rule>): map<string, (bool, string)> {
    if rules == [] then map[]
    else StateOf(rules[..|rules| - 1])[rules[|rules| - 1].company := RuleState(rules[|rules| - 1])]
  }

  function Changed(before: map<string, (bool, string)>, after: map<string, (bool, string)>): set<string> {
    set c | c in before.Keys + after.Keys && !(c in before && c in after && before[c] == after[c])
  }

  predicate UniqueCompanies(rules: seq<Rule>) {
    forall i, j | 0 <= i < j < |rules| :: rules[i].company != rules[j].company
  }

  predicate AnyEnabled(rules: seq<Rule>) {
    exists i | 0 <= i < |rules| :: rules[i].enabled
  }

  predicate AcceptableRule(r: Rule, joined: map<string, string>) {
    ValidGroupId(r.groupId) && (r.enabled ==> r.groupId in joined)
  }

  predicate AcceptableRules(rules: seq<Rule>, joined: map<string, string>) {
    forall i | 0 <= i < |rules| :: AcceptableRule(rules[i], joined)
  }

  /** An enabled rule takes the name of its joined group. */
  function NameRule(r: Rule, joined: map<string, string>): Rule {
    if r.enabled && r.groupId in joined then r.(groupName := joined[r.groupId]) else r
  }

  function Named(rules: seq<Rule>, joined: map<string, string>): seq<Rule> {
    seq(|rules|, i requires 0 <= i < |rules| => NameRule(rules[i], joined))
  }

  /** A save: what the form holds, the groups the gateway reports (absent when it fails), and
      the companies the user may read. */
  datatype Save = Save(form: Settings, joined: Option<map<string, string>>, readable: set<string>)

  function Before(saved: Option<Settings>): map<string, (bool, string)> {
    match saved case Some(s) => StateOf(s.rules) case None => map[]
  }

  predicate MayChange(companies: set<string>, readable: set<string>) {
    "" !in companies && companies <= readable
  }

  /** The settings an accepted save stores. */
  function Accepted(saved: Option<Settings>, save: Save): Option<Settings> {
    var form := save.form;
    var clamped := form.(
      throttle := Some(
        Clamp(10, 300, if form.throttle.Some? && form.throttle.value != 0 then form.throttle.value else 10)),
      retries := Some(Clamp(0, 5, if form.retries.Some? then form.retries.value else 3)));
    var changed := Changed(Before(saved), StateOf(form.rules));
    var joined := if !AnyEnabled(form.rules) then Some(map[]) else save.joined;
    if form.provider.UnsupportedTransport? then None
    else if !UniqueCompanies(form.rules) then None
    else if !MayChange(changed, save.readable) then None
    else if AnyEnabled(form.rules) && !form.provider.LinkedDevice? then None
    else if changed == {} then Some(clamped)
    else if joined.None? then None
    else if AcceptableRules(form.rules, joined.value)
      then Some(clamped.(rules := Named(form.rules, joined.value)))
    else None
  }

  /** The settings document under validation. */
  class SettingsDocument {
    var form: Settings

    constructor (form: Settings)
      ensures this.form == form
    {
      this.form := form;
    }

    /** False when the save is rejected; the document is then discarded. */
    method Validate(saved: Option<Settings>, joined: Option<map<string, string>>, readable: set<string>)
      returns (ok: bool)
      modifies this
      ensures ok <==> Accepted(saved, Save(old(form), joined, readable)).Some?
      ensures ok ==> Some(form) == Accepted(saved, Save(old(form), joined, readable))
    {
      hide UniqueCompanies, ValidGroupId, Changed, MayChange, StateOf, AcceptableRules, AnyEnabled, Named;
      if form.provider.UnsupportedTransport? { return false; }
      var throttle := if form.throttle.Some? && form.throttle.value != 0 then form.throttle.value else 10;
      var retries := if form.retries.Some? then form.retries.value else 3;
      form := form.(throttle := Some(Clamp(10, 300, throttle)), retries := Some(Clamp(0, 5, retries)));
      ok := ValidateRules(saved, joined, readable);
    }

    method ValidateRules(saved: Option<Settings>, joined: Option<map<string, string>>, readable: set<string>)
      returns (ok: bool)
      modifies this
      ensures var rules := old(form.rules);
        var changed := Changed(Before(saved), StateOf(rules));
        var groups := if !AnyEnabled(rules) then Some(map[]) else joined;
        && (ok <==>
             && UniqueCompanies(rules) && MayChange(changed, readable)
             && (AnyEnabled(rules) ==> form.provider.LinkedDevice?)
             && (changed != {} ==> groups.Some? && AcceptableRules(rules, groups.value)))
        && (ok ==> form == old(form).(rules := if changed == {} then rules else Named(rules, groups.value)))
      ensures form == old(form).(rules := form.rules)
    {
      hide UniqueCompanies, ValidGroupId, Changed, MayChange, StateOf;
      var rules := form.rules;
      if !UniqueCompanies(rules) { return false; }
      var changed := Changed(Before(saved), StateOf(rules));
      if !MayChange(changed, readable) { return false; }
      if AnyEnabled(rules) && !form.provider.LinkedDevice? { return false; }
      if changed == {} { return true; }
      var groups := map[];
      if AnyEnabled(rules) {
        if joined.None? { return false; }
        groups := joined.value;
      }
      for i := 0 to |rules|
        invariant forall j | 0 <= j < i :: AcceptableRule(rules[j], groups)
        invariant form == old(form).(rules := form.rules) && |form.rules| == |rules|
        invariant forall j | 0 <= j < |rules| :: form.rules[j] == if j < i then NameRule(rules[j], groups) else rules[j]
      {
        if !ValidGroupId(rules[i].groupId) { return false; }
        if rules[i].enabled {
          if rules[i].groupId !in groups { return false; }
          form := form.(rules := form.rules[i := rules[i].(groupName := groups[rules[i].groupId])]);
        }
      }
      assert form.rules == Named(rules, groups);
      ok := true;
    }
  }

  // ---- any sequence of saves ----

  /** The stored settings, and the groups joined at the last save that changed a rule. */
  datatype Record = Record(saved: Option<Settings>, joined: set<string>)

  function Apply(r: Record, save: Save): Record {
    match Accepted(r.saved, save)
    case None => r
    case Some(s) =>
      if Changed(Before(r.saved), StateOf(save.form.rules)) == {} then r.(saved := Some(s))
      else Record(Some(s), if save.joined.Some? then save.joined.value.Keys else {})
  }

  function ApplyAll(r: Record, saves: seq<Save>): Record
    decreases |saves|
  {
    if saves == [] then r else ApplyAll(Apply(r, saves[0]), saves[1..])
  }

  predicate GoodSettings(s: Settings, joined: set<string>) {
    && UniqueCompanies(s.rules)
    && (forall i | 0 <= i < |s.rules| :: ValidGroupId(s.rules[i].groupId))
    && (AnyEnabled(s.rules) ==> s.provider.LinkedDevice?)
    && (forall i | 0 <= i < |s.rules| && s.rules[i].enabled :: s.rules[i].groupId in joined)
    && s.throttle.Some? && 10 <= s.throttle.value <= 300
    && s.retries.Some? && 0 <= s.retries.value <= 5
  }

  predicate GoodRecord(r: Record) { r.saved.Some? ==> GoodSettings(r.saved.value, r.joined) }

  lemma {:induction false} StateOfRule(rules: seq<Rule>, i: nat)
    requires UniqueCompanies(rules) && i < |rules|
    ensures rules[i].company in StateOf(rules) && StateOf(rules)[rules[i].company] == RuleState(rules[i])
  {
    if i == |rules| - 1 {
    } else {
      StateOfRule(rules[..|rules| - 1], i);
    }
  }

  lemma {:induction false} StateOfIsARule(rules: seq<Rule>, c: string)
    requires c in StateOf(rules)
    ensures exists i | 0 <= i < |rules| :: rules[i].company == c && RuleState(rules[i]) == StateOf(rules)[c]
  {
    var last := |rules| - 1;
    if rules[last].company != c {
      StateOfIsARule(rules[..last], c);
      var i :| 0 <= i < last && rules[i].company == c && RuleState(rules[i]) == StateOf(rules[..last])[c];
      assert rules[i].company == c;
    }
  }

  // ---- what a save comes to ----

  /** A rule for the same company that is on or off alike and names the same group. */
  predicate Counterpart(r: Rule, others: seq<Rule>) {
    exists o | o in others :: o.company == r.company && o.enabled == r.enabled && o.groupId == r.groupId
  }

  /** The rule was dropped, added or altered. */
  predicate Differs(r: Rule, before: seq<Rule>, after: seq<Rule>) {
    || (r in before && !Counterpart(r, after))
    || (r in after && !Counterpart(r, before))
  }

  lemma ListedState(r: Rule, rules: seq<Rule>)
    requires UniqueCompanies(rules) && r in rules
    ensures r.company in StateOf(rules) && StateOf(rules)[r.company] == RuleState(r)
  {
    var i :| 0 <= i < |rules| && rules[i] == r;
    StateOfRule(rules, i);
  }

  /** A company's rules count as changed exactly when one of them differs. */
  lemma ChangedExactly(before: seq<Rule>, after: seq<Rule>, c: string)
    requires UniqueCompanies(before) && UniqueCompanies(after)
    ensures c in Changed(StateOf(before), StateOf(after)) <==>
      exists r | r in before + after :: r.company == c && Differs(r, before, after)
  {
    forall r | r in before + after && r.company == c && Differs(r, before, after)
      ensures c in Changed(StateOf(before), StateOf(after))
    {
      DifferenceChanges(before, after, r);
    }
    if c in Changed(StateOf(before), StateOf(after)) {
      var (rules, others) := if c in StateOf(before) then (before, after) else (after, before);
      assert c in StateOf(rules);
      StateOfIsARule(rules, c);
      var i :| 0 <= i < |rules| && rules[i].company == c && RuleState(rules[i]) == StateOf(rules)[c];
      if Counterpart(rules[i], others) {
        var o :| o in others && o.company == c && o.enabled == rules[i].enabled && o.groupId == rules[i].groupId;
        ListedState(o, others);
      }
      assert rules[i] in before + after && Differs(rules[i], before, after);
    }
  }

  lemma DifferenceChanges(before: seq<Rule>, after: seq<Rule>, r: Rule)
    requires UniqueCompanies(before) && UniqueCompanies(after) && Differs(r, before, after)
    ensures r.company in Changed(StateOf(before), StateOf(after))
  {
    var (rules, others) := if r in before && !Counterpart(r, after) then (before, after) else (after, before);
    ListedState(r, rules);
    if r.company in StateOf(others) && StateOf(others)[r.company] == RuleState(r) {
      StateOfIsARule(others, r.company);
    }
  }

  lemma NothingChanged(before: seq<Rule>, after: seq<Rule>)
    requires UniqueCompanies(before) && UniqueCompanies(after)
    ensures Changed(StateOf(before), StateOf(after)) == {} <==>
      forall r | r in before + after :: !Differs(r, before, after)
  {
    hide Changed, StateOf, Differs;
    var changed := Changed(StateOf(before), StateOf(after));
    if changed != {} {
      var c :| c in changed;
      ChangedExactly(before, after, c);
    } else {
      forall r | r in before + after ensures !Differs(r, before, after) {
        ChangedExactly(before, after, r.company);
      }
    }
  }

  lemma MayChangeExactly(before: seq<Rule>, after: seq<Rule>, readable: set<string>)
    requires UniqueCompanies(before) && UniqueCompanies(after)
    ensures MayChange(Changed(StateOf(before), StateOf(after)), readable) <==>
      forall r | r in before + after && Differs(r, before, after) :: r.company != "" && r.company in readable
  {
    hide Changed, StateOf, Differs;
    var changed := Changed(StateOf(before), StateOf(after));
    forall r | r in before + after && Differs(r, before, after) ensures r.company in changed {
      ChangedExactly(before, after, r.company);
    }
    forall c | c in changed ensures exists r | r in before + after :: r.company == c && Differs(r, before, after) {
      ChangedExactly(before, after, c);
    }
  }

  /** A save is accepted exactly when the transport is supported, no company has two rules, every rule
      that differs is for a company the user may read, an enabled rule goes with the linked device, and,
      if any rule differs, all group ids are well formed and the enabled ones are joined groups. */
  lemma AcceptedExactly(saved: Option<Settings>, save: Save)
    requires saved.Some? ==> UniqueCompanies(saved.value.rules)
    ensures var form := save.form;
      var before := if saved.Some? then saved.value.rules else [];
      var anyEnabled := exists r | r in form.rules :: r.enabled;
      Accepted(saved, save).Some? <==>
        && form.provider != UnsupportedTransport
        && (forall i, j | 0 <= i < j < |form.rules| :: form.rules[i].company != form.rules[j].company)
        && (forall r | r in before + form.rules && Differs(r, before, form.rules) ::
              r.company != "" && r.company in save.readable)
        && (anyEnabled ==> form.provider == LinkedDevice)
        && ((exists r | r in before + form.rules :: Differs(r, before, form.rules)) ==>
              && (anyEnabled ==> save.joined.Some?)
              && forall r | r in form.rules ::
                   ValidGroupId(r.groupId) && (r.enabled ==> r.groupId in save.joined.value))
  {
    hide ValidGroupId, StateOf, Changed, Differs, MayChange;
    var rules := save.form.rules;
    var before: seq<Rule> := if saved.Some? then saved.value.rules else [];
    if UniqueCompanies(rules) {
      NothingChanged(before, rules);
      MayChangeExactly(before, rules, save.readable);
      assert Before(saved) == StateOf(before) by { StateOfNothing(); }
      assert AnyEnabled(rules) <==> exists r | r in rules :: r.enabled;
    }
  }

  lemma StateOfNothing()
    ensures StateOf([]) == map[]
  {
  }

  /** An accepted save stores the form with the throttle within 10 and 300 seconds, 10 by default, the
      retries within 0 and 5, 3 by default, and, if any rule differs, the names of the joined groups. */
  lemma AcceptedStores(saved: Option<Settings>, save: Save)
    requires saved.Some? ==> UniqueCompanies(saved.value.rules)
    requires Accepted(saved, save).Some?
    ensures var stored, form := Accepted(saved, save).value, save.form;
      var before := if saved.Some? then saved.value.rules else [];
      && stored.enabled == form.enabled && stored.provider == form.provider
      && stored.throttle == Some(match form.throttle
                                 case None => 10
                                 case Some(n) => if n < 10 then 10 else if n > 300 then 300 else n)
      && stored.retries == Some(match form.retries
                                case None => 3
                                case Some(n) => if n < 0 then 0 else if n > 5 then 5 else n)
      && |stored.rules| == |form.rules|
      && ((forall r | r in before + form.rules :: !Differs(r, before, form.rules)) ==> stored.rules == form.rules)
      && ((exists r | r in before + form.rules :: Differs(r, before, form.rules)) ==>
            forall i | 0 <= i < |form.rules| ::
              var r := form.rules[i];
              if r.enabled then
                save.joined.Some? && r.groupId in save.joined.value
                && stored.rules[i] == r.(groupName := save.joined.value[r.groupId])
              else stored.rules[i] == r)
  {
    hide ValidGroupId, StateOf, Changed, Differs, MayChange;
    var rules := save.form.rules;
    var before: seq<Rule> := if saved.Some? then saved.value.rules else [];
    NothingChanged(before, rules);
    assert Before(saved) == StateOf(before) by { StateOfNothing(); }
    if exists r | r in before + rules :: Differs(r, before, rules) {
      forall i | 0 <= i < |rules| && rules[i].enabled
        ensures save.joined.Some? && AcceptableRule(rules[i], save.joined.value)
      {
        assert AnyEnabled(rules);
      }
    }
  }

  /** A form with the same rules as the stored settings is as well formed as they are. */
  lemma UnchangedRules(s: Settings, rules: seq<Rule>, joined: set<string>, i: nat)
    requires GoodSettings(s, joined) && UniqueCompanies(rules)
    requires Changed(StateOf(s.rules), StateOf(rules)) == {}
    requires i < |rules|
    ensures ValidGroupId(rules[i].groupId)
    ensures rules[i].enabled ==> rules[i].groupId in joined
  {
    StateOfRule(rules, i);
    var c := rules[i].company;
    assert c !in Changed(StateOf(s.rules), StateOf(rules));
    StateOfIsARule(s.rules, c);
  }

  lemma FirstRulesChange(rules: seq<Rule>)
    requires UniqueCompanies(rules)
    ensures rules != [] ==> Changed(map[], StateOf(rules)) != {}
  {
    if rules == [] {
    } else {
      StateOfRule(rules, 0);
      assert rules[0].company in Changed(map[], StateOf(rules));
    }
  }

  lemma ApplyKeepsGood(r: Record, save: Save)
    requires GoodRecord(r)
    ensures GoodRecord(Apply(r, save))
  {
    var form := save.form;
    var changed := Changed(Before(r.saved), StateOf(form.rules));
    match Accepted(r.saved, save)
    case None =>
    case Some(s) =>
      if changed == {} {
        forall i | 0 <= i < |s.rules|
          ensures ValidGroupId(s.rules[i].groupId)
          ensures s.rules[i].enabled ==> s.rules[i].groupId in r.joined
        {
          if r.saved.Some? {
            UnchangedRules(r.saved.value, s.rules, r.joined, i);
          } else {
            FirstRulesChange(s.rules);
          }
        }
      }
  }

  /** A save that changes a rule stores, for each enabled rule, the name the gateway reports. */
  lemma ChangedSaveNamesGroups(saved: Option<Settings>, save: Save, i: nat)
    requires Accepted(saved, save).Some? && i < |save.form.rules| && save.form.rules[i].enabled
    requires Changed(Before(saved), StateOf(save.form.rules)) != {}
    ensures save.joined.Some? && save.form.rules[i].groupId in save.joined.value
    ensures var stored := Accepted(saved, save).value.rules;
      && |stored| == |save.form.rules|
      && stored[i] == save.form.rules[i].(groupName := save.joined.value[save.form.rules[i].groupId])
  {
    assert AnyEnabled(save.form.rules);
    assert AcceptableRule(save.form.rules[i], save.joined.value);
  }

  /** After any saves: companies are unique, group ids well formed, an enabled rule implies the
      linked device, enabled groups were joined when a rule last changed, the limits are in range. */
  lemma {:induction false} SavesKeepGood(r: Record, saves: seq<Save>)
    requires GoodRecord(r)
    ensures GoodRecord(ApplyAll(r, saves))
    decreases |saves|
  {
    if saves == [] {
    } else {
      ApplyKeepsGood(r, saves[0]);
      SavesKeepGood(Apply(r, saves[0]), saves[1..]);
    }
  }

  // ---- looking up a company's group ----

  datatype Lookup = NoGroup | Configured(groupId: string) | NeedsReconciliation | NotReadable | Malformed

  function Matches(rules: seq<Rule>, company: string): seq<Rule> {
    if rules == [] then []
    else (if rules[0].company == company && rules[0].enabled then [rules[0]] else []) + Matches(rules[1..], company)
  }

  function ConfiguredGroup(s: Settings, company: string, readable: bool): Lookup {
    var matches := Matches(s.rules, company);
    if matches == [] then NoGroup
    else if |matches| != 1 || !s.provider.LinkedDevice? then NeedsReconciliation
    else if company == "" || !readable then NotReadable
    else if !ValidGroupId(matches[0].groupId) then Malformed
    else Configured(matches[0].groupId)
  }

  lemma {:induction false} MatchesOfUnique(rules: seq<Rule>, company: string)
    requires UniqueCompanies(rules)
    ensures |Matches(rules, company)| <= 1
    ensures forall r | r in Matches(rules, company) :: r in rules && r.enabled && r.company == company
  {
    if rules == [] {
    } else {
      MatchesOfUnique(rules[1..], company);
      assert forall r | r in rules[1..] :: r in rules && r.company != rules[0].company;
      var rest := Matches(rules[1..], company);
      assert rest == [] || rest[0] in rest;
    }
  }

  /** An enabled rule for the company. */
  predicate Enables(rules: seq<Rule>, i: nat, company: string) {
    i < |rules| && rules[i].enabled && rules[i].company == company
  }

  lemma {:induction false} MatchesNothing(rules: seq<Rule>, company: string)
    ensures Matches(rules, company) == [] <==> forall i: nat | i < |rules| :: !Enables(rules, i, company)
  {
    if rules == [] {
    } else {
      MatchesNothing(rules[1..], company);
      assert forall i: nat | 0 < i < |rules| :: Enables(rules, i, company) <==> Enables(rules[1..], i - 1, company);
      assert forall i: nat | i < |rules| - 1 :: Enables(rules[1..], i, company) <==> Enables(rules, i + 1, company);
      assert Enables(rules, 0, company) <==> rules[0].enabled && rules[0].company == company;
    }
  }

  lemma {:induction false} MatchesAt(rules: seq<Rule>, company: string, i: nat)
    requires Enables(rules, i, company)
    ensures (exists j: nat | j != i :: Enables(rules, j, company)) <==> |Matches(rules, company)| != 1
    ensures |Matches(rules, company)| == 1 ==> Matches(rules, company) == [rules[i]]
  {
    var rest := rules[1..];
    assert forall j: nat | 0 < j < |rules| :: Enables(rules, j, company) <==> Enables(rest, j - 1, company);
    assert forall j: nat | j < |rest| :: Enables(rest, j, company) <==> Enables(rules, j + 1, company);
    MatchesNothing(rest, company);
    if i == 0 {
      if Matches(rest, company) != [] {
        var j: nat :| j < |rest| && Enables(rest, j, company);
        assert Enables(rules, j + 1, company);
      }
    } else {
      MatchesAt(rest, company, i - 1);
      if Enables(rules, 0, company) {
        assert Matches(rest, company) != [];
      } else if j: nat :| j != i - 1 && Enables(rest, j, company) {
        assert Enables(rules, j + 1, company);
      }
    }
  }

  /** What a lookup answers: no group without an enabled rule for the company; with one, its group, if
      it is the only one, the linked device is used, the company is named and readable, and the id is
      well formed. */
  lemma LookupExactly(s: Settings, company: string, readable: bool)
    ensures ConfiguredGroup(s, company, readable) == NoGroup <==>
      forall r | r in s.rules :: !(r.enabled && r.company == company)
    ensures forall i: nat | i < |s.rules| && s.rules[i].enabled && s.rules[i].company == company ::
      ConfiguredGroup(s, company, readable) ==
        if s.provider != LinkedDevice
           || exists j | 0 <= j < |s.rules| && j != i :: s.rules[j].enabled && s.rules[j].company == company
        then NeedsReconciliation
        else if company == "" || !readable then NotReadable
        else if !ValidGroupId(s.rules[i].groupId) then Malformed
        else Configured(s.rules[i].groupId)
  {
    hide ValidGroupId, Matches;
    MatchesNothing(s.rules, company);
    forall i: nat | Enables(s.rules, i, company)
      ensures (exists j: nat | j != i :: Enables(s.rules, j, company)) <==> |Matches(s.rules, company)| != 1
      ensures |Matches(s.rules, company)| == 1 ==> Matches(s.rules, company) == [s.rules[i]]
    {
      MatchesAt(s.rules, company, i);
    }
  }

  /** On saved settings a lookup fails only for want of the company permission, and a group it
      finds was joined when a rule last changed. */
  lemma SavedSettingsNeverReconcile(saves: seq<Save>, company: string, readable: bool)
    ensures var r := ApplyAll(Record(None, {}), saves);
      r.saved.Some? ==>
        match ConfiguredGroup(r.saved.value, company, readable)
        case NoGroup => forall rule | rule in r.saved.value.rules && rule.company == company :: !rule.enabled
        case NotReadable => company == "" || !readable
        case Configured(id) =>
          company != "" && readable && id in r.joined && exists rule | rule in r.saved.value.rules ::
            rule.company == company && rule.enabled && rule.groupId == id
        case _ => false
  {
    SavesKeepGood(Record(None, {}), saves);
    var r := ApplyAll(Record(None, {}), saves);
    if r.saved.Some? {
      var rules := r.saved.value.rules;
      MatchesOfUnique(rules, company);
      MatchesFindEnabled(rules, company);
      if Matches(rules, company) != [] {
        assert Matches(rules, company)[0] in Matches(rules, company);
      }
    }
  }

  lemma {:induction false} MatchesFindEnabled(rules: seq<Rule>, company: string)
    ensures Matches(rules, company) == [] ==> forall r | r in rules && r.company == company :: !r.enabled
  {
    if rules == [] {
    } else {
      MatchesFindEnabled(rules[1..], company);
    }
  }
}
