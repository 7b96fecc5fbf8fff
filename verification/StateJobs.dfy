/** The three writers as jobs on the state file: what each does to the parsed state. */
module StateJobs {
  import opened CText
  import opened Json
  import opened JsonText
  import opened CjsonHandler
  import opened StateFile

  const K_CATEGORY: CString := "suply_type_equivalent"
  const K_KEY: CString := "key"
  const K_VALUE: CString := "value"

  /** A modify request to serve, an entry to count, an event to record. */
  datatype Job = Supply(request: CString) | Alert(entry: CString) | Event(key: CString, value: CString)

  datatype Fields = Fields(category: CString, key: CString, value: CString)

  /** set_supply: the three fields it takes from the request. */
  function RequestFields(request: CString): Option<Fields> {
    match (Get(request, K_CATEGORY), Get(request, K_KEY), Get(request, K_VALUE))
    case (Some(c), Some(k), Some(v)) => Some(Fields(c, k, v))
    case _ => None
  }

  /** The text a job writes for the text it read; None if it gives up before writing. */
  function Apply(job: Job, text: CString): Option<CString> {
    match job
    case Supply(request) =>
      (match RequestFields(request)
       case None => None
       case Some(f) => SupplyText(text, f.category, f.key, f.value))
    case Alert(entry) => AlertText(text, entry)
    case Event(key, value) => EventText(text, key, value)
  }

  // ----- the schema of the state file ----------------------------------------------------

  ghost predicate AllObjects(ms: Members) {
    forall k :: k in Keys(ms) ==> HasObject(ms, k)
  }

  /** Three sections, all objects; keys unique up to case at the top, in alerts and in supplies;
      every category an object. */
  ghost predicate Schema(top: Members) {
    && UniqueFold(top)
    && HasObject(top, SUPPLIES) && HasObject(top, ALERTS) && HasObject(top, EMERGENCY)
    && UniqueFold(Section(top, ALERTS))
    && UniqueFold(Section(top, SUPPLIES))
    && AllObjects(Section(top, SUPPLIES))
  }

  /** The key sets that no run may change. */
  datatype Shape = Shape(top: set<CString>, alerts: set<CString>, categories: set<CString>)

  function ShapeOf(top: Members): Shape
    requires HasObject(top, ALERTS) && HasObject(top, SUPPLIES)
  {
    Shape(Keys(top), Keys(Section(top, ALERTS)), Keys(Section(top, SUPPLIES)))
  }

  // ----- jobs on the parsed state --------------------------------------------------------

  function SectionName(job: Job): CString {
    match job case Supply(_) => SUPPLIES case Alert(_) => ALERTS case Event(_, _) => EMERGENCY
  }

  function NewSupplies(f: Fields, section: Members): Option<Members> {
    if HasObject(section, f.category)
    then Some(EditCategory(section, f.category, f.key, IntItem(f.value))) else None
  }

  /** What a job makes of its own section; it depends on nothing else in the state. */
  function NewSection(job: Job, section: Members): Option<Members> {
    match job
    case Supply(request) =>
      (match RequestFields(request) case Some(f) => NewSupplies(f, section) case None => None)
    case Alert(entry) =>
      (match GetMember(Obj(section), entry)
       case Some(t) => Some(Override(section, entry, CountItem(Atoi(t) + 1)))
       case None => None)
    case Event(key, value) => Some(Override(section, key, IntItem(value)))
  }

  function ApplyTree(job: Job, top: Members): Option<Members>
    requires HasObject(top, SectionName(job))
  {
    match NewSection(job, Section(top, SectionName(job)))
    case Some(s) => Some(Override(top, SectionName(job), Obj(s)))
    case None => None
  }

  // ----- the text routines do to the text what the jobs do to the tree --------------------

  lemma {:induction false} SupplyIsTree(text: CString, top: Members, f: Fields)
    requires Parse(text) == Some(Obj(top)) && Schema(top)
    ensures SupplyText(text, f.category, f.key, f.value)
         == match NewSupplies(f, Section(top, SUPPLIES))
            case Some(s) => Some(Text(Obj(Override(top, SUPPLIES, Obj(s)))))
            case None => None
  {
    var sup := Section(top, SUPPLIES);
    GetObject(text, Obj(top), SUPPLIES);
    LookupKeys(sup, f.category);
    SupplyFailsExactly(text, f.category, f.key, f.value);
    if NewSupplies(f, sup).Some? {
      var v := IntItem(f.value);
      SupplyRefinesPutAt(text, top, f.category, f.key, f.value, v);
      PutAtSupply(top, f.category, f.key, v);
    }
  }

  lemma {:induction false} AlertIsTree(text: CString, top: Members, entry: CString)
    requires Parse(text) == Some(Obj(top)) && Schema(top)
    ensures AlertText(text, entry)
         == match NewSection(Alert(entry), Section(top, ALERTS))
            case Some(s) => Some(Text(Obj(Override(top, ALERTS, Obj(s)))))
            case None => None
  {
    var alerts := Section(top, ALERTS);
    GetObject(text, Obj(top), ALERTS);
    if GetMember(Obj(alerts), entry).Some? {
      var n := Atoi(GetMember(Obj(alerts), entry).value) + 1;
      MakeCount(n);
      AddToObject(Text(Obj(alerts)), alerts, entry, IntText(n), CountItem(n));
      PutObject(text, top, ALERTS, Obj(Override(alerts, entry, CountItem(n))));
    }
  }

  lemma {:induction false} EventIsTree(text: CString, top: Members, key: CString, value: CString)
    requires Parse(text) == Some(Obj(top)) && Schema(top)
    ensures EventText(text, key, value)
         == match NewSection(Event(key, value), Section(top, EMERGENCY))
            case Some(s) => Some(Text(Obj(Override(top, EMERGENCY, Obj(s)))))
            case None => None
  {
    var section := Section(top, EMERGENCY);
    GetObject(text, Obj(top), EMERGENCY);
    AddToObject(Text(Obj(section)), section, key, value, IntItem(value));
    PutObject(text, top, EMERGENCY, Obj(Override(section, key, IntItem(value))));
  }

  /** Each routine, all its conversions included, is its job on the parsed state. */
  lemma {:induction false} ApplyIsTree(job: Job, text: CString, top: Members)
    requires Parse(text) == Some(Obj(top)) && Schema(top)
    ensures Apply(job, text)
         == match ApplyTree(job, top) case Some(t) => Some(Text(Obj(t))) case None => None
    ensures Apply(job, text).Some? ==>
              ApplyTree(job, top).Some? && Parse(Apply(job, text).value) == Some(Obj(ApplyTree(job, top).value))
  {
    match job {
      case Supply(request) =>
        if RequestFields(request).Some? { SupplyIsTree(text, top, RequestFields(request).value); }
      case Alert(entry) => AlertIsTree(text, top, entry);
      case Event(key, value) => EventIsTree(text, top, key, value);
    }
    if ApplyTree(job, top).Some? { RoundTrip(Obj(ApplyTree(job, top).value)); }
  }

  // ----- what a job keeps ----------------------------------------------------------------

  /** A job changes its own section only, as a lookup, and adds no key at the top. */
  lemma {:induction false} ApplyLookup(job: Job, top: Members, q: CString)
    requires Schema(top) && ApplyTree(job, top).Some?
    ensures Lookup(ApplyTree(job, top).value, q)
         == if q == SectionName(job) then Some(Obj(NewSection(job, Section(top, SectionName(job))).value))
            else Lookup(top, q)
    ensures UniqueFold(ApplyTree(job, top).value) && Keys(ApplyTree(job, top).value) == Keys(top)
  {
    var name := SectionName(job);
    var s := NewSection(job, Section(top, name)).value;
    UniqueIsSafe(top, name);
    OverrideLookup(top, name, Obj(s), q);
    OverrideKeepsUnique(top, name, Obj(s));
    LookupKeys(top, name);
  }

  lemma {:induction false} SuppliesKeep(f: Fields, section: Members)
    requires UniqueFold(section) && AllObjects(section) && NewSupplies(f, section).Some?
    ensures var s := NewSupplies(f, section).value;
            UniqueFold(s) && AllObjects(s) && Keys(s) == Keys(section)
  {
    var v := IntItem(f.value);
    var item := Obj(Override(Section(section, f.category), f.key, v));
    UniqueIsSafe(section, f.category);
    OverrideKeepsUnique(section, f.category, item);
    LookupKeys(section, f.category);
    forall k ensures k in Keys(NewSupplies(f, section).value) ==> HasObject(NewSupplies(f, section).value, k) {
      OverrideLookup(section, f.category, item, k);
    }
    OverrideLookup(section, f.category, item, f.category);
  }

  lemma {:induction false} AlertsKeep(entry: CString, section: Members)
    requires UniqueFold(section) && NewSection(Alert(entry), section).Some?
    ensures var s := NewSection(Alert(entry), section).value;
            UniqueFold(s) && Keys(s) == Keys(section)
  {
    var item := CountItem(Atoi(GetMember(Obj(section), entry).value) + 1);
    UniqueIsSafe(section, entry);
    OverrideKeepsUnique(section, entry, item);
    OverrideLookup(section, entry, item, entry);
    LookupKeys(section, entry);
  }

  /** Every job keeps the schema and the shape, because each must find the key it edits. */
  lemma {:induction false} ApplyKeepsSchema(job: Job, top: Members)
    requires Schema(top) && ApplyTree(job, top).Some?
    ensures Schema(ApplyTree(job, top).value)
    ensures ShapeOf(ApplyTree(job, top).value) == ShapeOf(top)
  {
    ApplyLookup(job, top, SUPPLIES);
    ApplyLookup(job, top, ALERTS);
    ApplyLookup(job, top, EMERGENCY);
    match job
    case Supply(request) => SuppliesKeep(RequestFields(request).value, Section(top, SUPPLIES));
    case Alert(entry) => AlertsKeep(entry, Section(top, ALERTS));
    case Event(key, value) =>
  }

  /** Jobs on different sections commute on every lookup, although each moves its section to the end. */
  lemma {:induction false} JobsCommute(a: Job, b: Job, top: Members, q: CString)
    requires Schema(top) && SectionName(a) != SectionName(b)
    requires ApplyTree(a, top).Some? && ApplyTree(b, top).Some?
    ensures HasObject(ApplyTree(a, top).value, SectionName(b)) && HasObject(ApplyTree(b, top).value, SectionName(a))
    ensures var ab, ba := ApplyTree(b, ApplyTree(a, top).value), ApplyTree(a, ApplyTree(b, top).value);
            ab.Some? && ba.Some? && Lookup(ab.value, q) == Lookup(ba.value, q)
  {
    ApplyKeepsSchema(a, top);
    ApplyKeepsSchema(b, top);
    ApplyLookup(a, top, SectionName(b));
    ApplyLookup(b, top, SectionName(a));
    ApplyLookup(a, top, q);
    ApplyLookup(b, top, q);
    ApplyLookup(b, ApplyTree(a, top).value, q);
    ApplyLookup(a, ApplyTree(b, top).value, q);
  }

  // ----- each job sets one path ----------------------------------------------------------

  /** The path a job edits. */
  function JobPath(job: Job): Option<seq<CString>> {
    match job
    case Supply(request) =>
      (match RequestFields(request) case Some(f) => Some(SupplyPath(f.category, f.key)) case None => None)
    case Alert(entry) => Some([ALERTS, entry])
    case Event(key, _) => Some([EMERGENCY, key])
  }

  /** The item it puts there. */
  function JobItem(job: Job, top: Members): Option<Json>
    requires HasObject(top, ALERTS)
  {
    match job
    case Supply(request) =>
      (match RequestFields(request) case Some(f) => Some(IntItem(f.value)) case None => None)
    case Alert(entry) =>
      (match GetMember(Obj(Section(top, ALERTS)), entry)
       case Some(t) => Some(CountItem(Atoi(t) + 1))
       case None => None)
    case Event(_, value) => Some(IntItem(value))
  }

  lemma {:induction false} PutAtTwo(top: Members, a: CString, k: CString, v: Json)
    requires HasObject(top, a)
    ensures PutAt(Obj(top), [a, k], v) == Some(Obj(Override(top, a, Obj(Override(Section(top, a), k, v)))))
  {
    assert [a, k][1..] == [k];
    assert PutAt(Obj(Section(top, a)), [k], v) == Some(Obj(Override(Section(top, a), k, v)));
  }

  lemma {:induction false} JobIsPutAt(job: Job, top: Members)
    requires Schema(top) && ApplyTree(job, top).Some?
    ensures JobPath(job).Some? && JobItem(job, top).Some?
    ensures JobPath(job).value != []
    ensures PutAt(Obj(top), JobPath(job).value, JobItem(job, top).value) == Some(Obj(ApplyTree(job, top).value))
  {
    var v := JobItem(job, top).value;
    match job
    case Supply(request) =>
      var f := RequestFields(request).value;
      PutAtSupply(top, f.category, f.key, v);
    case Alert(entry) => PutAtTwo(top, ALERTS, entry, v);
    case Event(key, value) => PutAtTwo(top, EMERGENCY, key, v);
  }

  /** An alert's path is never shadowed. */
  lemma {:induction false} AlertPathSafe(top: Members, entry: CString)
    requires Schema(top)
    ensures SafePath(Obj(top), [ALERTS, entry])
  {
    UniqueIsSafe(top, ALERTS);
    UniqueIsSafe(Section(top, ALERTS), entry);
    assert [ALERTS, entry][1..] == [entry];
    assert SafePath(Obj(Section(top, ALERTS)), [entry]);
  }

  /** Every job, of any of the three kinds, sets one path of the stored state and leaves every path
      that parts from it as it was: an alert always, a supply or an event provided no key of its path
      is shadowed by one that differs only by case. */
  lemma {:induction false} JobSetsOnePath(job: Job, text: CString, top: Members)
    requires Parse(text) == Some(Obj(top)) && Schema(top) && Apply(job, text).Some?
    ensures JobPath(job).Some? && JobItem(job, top).Some?
    ensures job.Alert? || SafePath(Obj(top), JobPath(job).value) ==>
              Parse(Apply(job, text).value).Some?
              && OnlySet(Obj(top), Parse(Apply(job, text).value).value, JobPath(job).value, JobItem(job, top).value)
  {
    ApplyIsTree(job, text, top);
    JobIsPutAt(job, top);
    if job.Alert? { AlertPathSafe(top, job.entry); }
    if SafePath(Obj(top), JobPath(job).value) {
      PutAtOnlySets(Obj(top), JobPath(job).value, JobItem(job, top).value);
    }
  }
}
