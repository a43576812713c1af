/** `AdminService` of the order service: the company-settings singleton, fetched or
    created with defaults, and updated by overlaying the fields of a DTO.
    The repository is an in-memory table in insertion order; `createdAt` comes from
    a counter that grows with every insert. */
module AdminSettings {
  import opened Wrappers

  /** The properties of `UpdateCompanySettingsDto`, which are also the settings' columns. */
  datatype Field = Name | Address | City | PostalCode | Country | Ico | Dic | Phone | Email | Website | LogoUrl | Notes

  /** A DTO: the properties it carries. */
  type Dto = map<Field, string>

  datatype CompanySettings = CompanySettings(id: nat, createdAt: nat, fields: map<Field, string>)

  datatype Store = Store(records: seq<CompanySettings>, nextId: nat, clock: nat)

  /** Records were inserted in creation order, all before the current clock. */
  predicate Valid(st: Store) {
    && (forall i, j :: 0 <= i < j < |st.records| ==> st.records[i].createdAt < st.records[j].createdAt)
    && (forall i :: 0 <= i < |st.records| ==> st.records[i].createdAt < st.clock)
  }

  /** `findOne({ order: { createdAt: 'ASC' } })`: the index of a record with the
      smallest `createdAt` (the first one on ties). */
  function FindEarliest(records: seq<CompanySettings>): (r: Option<nat>)
    ensures r.Some? <==> |records| > 0
    ensures r.Some? ==> (
      && r.value < |records|
      && (forall j :: 0 <= j < |records| ==> records[r.value].createdAt <= records[j].createdAt)
      && (forall j :: 0 <= j < r.value ==> records[r.value].createdAt < records[j].createdAt))
  {
    if |records| == 0 then None
    else
      var k := FindEarliest(records[..|records| - 1]);
      var last := |records| - 1;
      if k.None? || records[last].createdAt < records[k.value].createdAt then Some(last) else k
  }

  /** In a valid store the earliest record is the first one. */
  lemma EarliestIsFirst(st: Store)
    requires Valid(st) && |st.records| > 0
    ensures FindEarliest(st.records) == Some(0)
  {
    assert forall j :: 0 < j < |st.records| ==> st.records[0].createdAt < st.records[j].createdAt;
  }

  /** The values `getCompanySettings` creates the singleton with. */
  function Defaults(): (d: map<Field, string>)
    ensures d.Keys == {Name, Address, Country, Ico, Dic, Phone, Email, Website}
    ensures d[Name] == "FlipFlop.cz" && d[Email] == "info@flipflop.cz" && d[Website] == "https://flipflop.cz"
  {
    map[Name := "FlipFlop.cz", Address := "Czech Republic", Country := "Česká republika",
        Ico := "12345678", Dic := "CZ12345678", Phone := "+420 123 456 789",
        Email := "info@flipflop.cz", Website := "https://flipflop.cz"]
  }

  /** `Object.assign(settings, dto)` on the columns. */
  function Overlay(fields: map<Field, string>, dto: Dto): (r: map<Field, string>)
    ensures forall f :: f in dto ==> f in r && r[f] == dto[f]
    ensures forall f :: f !in dto ==> (f in r <==> f in fields) && (f in fields ==> r[f] == fields[f])
  {
    fields + dto
  }

  /** Overlaying the same DTO twice is overlaying it once. */
  lemma OverlayIdempotent(fields: map<Field, string>, dto: Dto)
    ensures Overlay(Overlay(fields, dto), dto) == Overlay(fields, dto)
  {
  }

  /** `save` of a new entity: the next id, the current time, appended. */
  function Inserted(st: Store, fields: map<Field, string>): (r: (Store, CompanySettings))
    ensures Valid(st) ==> Valid(r.0)
    ensures r.0.records == st.records + [r.1] && r.1.fields == fields
  {
    var s := CompanySettings(st.nextId, st.clock, fields);
    (Store(st.records + [s], st.nextId + 1, st.clock + 1), s)
  }

  /** The effect and result of `getCompanySettings`. */
  function GetResult(st: Store): (r: (Store, CompanySettings))
    requires Valid(st)
    ensures Valid(r.0) && |r.0.records| >= 1 && r.1 == r.0.records[0]
    ensures |st.records| > 0 ==> r == (st, st.records[0])
    ensures |st.records| == 0 ==> r.0.records == [r.1] && r.1.fields == Defaults()
  {
    match FindEarliest(st.records)
    case Some(k) => EarliestIsFirst(st); (st, st.records[k])
    case None => Inserted(st, Defaults())
  }

  /** A second `getCompanySettings` changes nothing and returns the same record. */
  lemma GetIsIdempotent(st: Store)
    requires Valid(st)
    ensures GetResult(GetResult(st).0) == GetResult(st)
  {
  }

  /** The effect and result of `updateCompanySettings`: the earliest record gets the
      DTO's fields; without a record, a new one is made of the DTO alone. */
  function UpdateResult(st: Store, dto: Dto): (r: (Store, CompanySettings))
    requires Valid(st)
    ensures Valid(r.0) && |r.0.records| >= 1 && r.1 == r.0.records[0]
    ensures |st.records| > 0 ==>
      && r.0 == st.(records := st.records[0 := r.1])
      && r.1 == st.records[0].(fields := Overlay(st.records[0].fields, dto))
    ensures |st.records| == 0 ==> r.0.records == [r.1] && r.1.fields == dto
  {
    match FindEarliest(st.records)
    case Some(k) =>
      EarliestIsFirst(st);
      var s := st.records[k].(fields := Overlay(st.records[k].fields, dto));
      (st.(records := st.records[k := s]), s)
    case None => Inserted(st, dto)
  }

  /** Applying the same update twice is applying it once, and the second call
      creates no record. */
  lemma UpdateIsIdempotent(st: Store, dto: Dto)
    requires Valid(st)
    ensures UpdateResult(UpdateResult(st, dto).0, dto) == UpdateResult(st, dto)
  {
    var (st1, s1) := UpdateResult(st, dto);
    assert st1.records[0 := s1] == st1.records;
    if |st.records| > 0 {
      OverlayIdempotent(st.records[0].fields, dto);
    } else {
      assert Overlay(dto, dto) == dto;
    }
  }

  /** An update keeps every column the DTO does not carry, and the record's id and
      creation time. */
  lemma UpdateKeepsOtherFields(st: Store, dto: Dto, f: Field)
    requires Valid(st) && |st.records| > 0 && f !in dto
    ensures var s := UpdateResult(st, dto).1;
      && s.id == st.records[0].id && s.createdAt == st.records[0].createdAt
      && (f in s.fields <==> f in st.records[0].fields)
      && (f in s.fields ==> s.fields[f] == st.records[0].fields[f])
  {
  }

  class AdminService {
    var records: seq<CompanySettings>
    var nextId: nat
    var clock: nat

    function State(): Store
      reads this
    {
      Store(records, nextId, clock)
    }

    constructor(initial: Store)
      ensures State() == initial
    {
      records, nextId, clock := initial.records, initial.nextId, initial.clock;
    }

    /** `companySettingsRepository.save` of a newly created entity. */
    method Insert(fields: map<Field, string>) returns (saved: CompanySettings)
      modifies this
      ensures (State(), saved) == Inserted(old(State()), fields)
    {
      saved := CompanySettings(nextId, clock, fields);
      records := records + [saved];
      nextId := nextId + 1;
      clock := clock + 1;
    }

    method GetCompanySettings() returns (settings: CompanySettings)
      requires Valid(State())
      modifies this
      ensures (State(), settings) == GetResult(old(State()))
    {
      var found := FindEarliest(records);
      if found.None? {
        settings := Insert(Defaults());
      } else {
        settings := records[found.value];
      }
    }

    method UpdateCompanySettings(updateDto: Dto) returns (saved: CompanySettings)
      requires Valid(State())
      modifies this
      ensures (State(), saved) == UpdateResult(old(State()), updateDto)
    {
      var found := FindEarliest(records);
      if found.None? {
        saved := Insert(updateDto);
      } else {
        var settings := records[found.value];
        settings := settings.(fields := Overlay(settings.fields, updateDto));
        records := records[found.value := settings];
        saved := settings;
      }
    }
  }
}
