/** The patient endpoints: the age rule shared by create and update, the
    document a new patient is stored as, the partial update built from the
    non-null request fields, and the patient store they read and write.
    `today` and the store's server timestamp are inputs. */
module PatientsApi {
  import opened Wrappers
  import opened Text
  import opened PyValue

  type Dict = seq<(string, Value)>

  datatype Date = Date(year: int, month: int, day: int)

  /** A calendar date Python can represent. */
  predicate ValidDate(d: Date) {
    1 <= d.year <= 9999 && 1 <= d.month <= 12 && 1 <= d.day <= 31
  }

  // ---------------------------------------------------------------------
  // Age and ISO text

  /** `today.year - birth.year`, less one before this year's birthday. */
  function Age(birth: Date, today: Date): int {
    var age := today.year - birth.year;
    if today.month < birth.month || (today.month == birth.month && today.day < birth.day) then age - 1 else age
  }

  /** The `n`-th birthday (same month and day, `n` years on) is on or
      before `today`. */
  predicate BirthdayReached(birth: Date, today: Date, n: int) {
    birth.year + n < today.year ||
    (birth.year + n == today.year &&
     (birth.month < today.month || (birth.month == today.month && birth.day <= today.day)))
  }

  /** The age is the number of birthdays reached: the age-th is reached
      and the next one is not. */
  lemma AgeIsBirthdaysReached(birth: Date, today: Date)
    ensures BirthdayReached(birth, today, Age(birth, today))
    ensures !BirthdayReached(birth, today, Age(birth, today) + 1)
  {
  }

  /** Nobody born on or before today has a negative age. */
  lemma AgeNonNegative(birth: Date, today: Date)
    requires BirthdayReached(birth, today, 0)
    ensures Age(birth, today) >= 0
  {
  }

  /** Someone born on 29 February turns a year older on 1 March in a
      year without that day. */
  lemma LeapDayBirthday(y: int, z: int)
    requires z > y
    ensures Age(Date(y, 2, 29), Date(z, 2, 28)) == z - y - 1
    ensures Age(Date(y, 2, 29), Date(z, 3, 1)) == z - y
  {
  }

  /** `n` as exactly `width` digits, zero-padded (`n` must fit). */
  function Padded(n: nat, width: nat): (r: string)
    ensures |NatToString(n)| <= width ==> |r| == width
  {
    var digits := NatToString(n);
    if |digits| >= width then digits else Zeros(width - |digits|) + digits
  }

  function Zeros(k: nat): (r: string)
    ensures |r| == k && forall i :: 0 <= i < k ==> r[i] == '0'
  {
    if k == 0 then "" else "0" + Zeros(k - 1)
  }

  lemma {:induction false} DigitCount(n: nat, bound: nat, width: nat)
    requires n < bound && bound == Power10(width)
    ensures |NatToString(n)| <= if width == 0 then 1 else width
  {
    if n >= 10 {
      assert width != 0;
      DigitCount(n / 10, Power10(width - 1), width - 1);
    }
  }

  function Power10(k: nat): (r: nat)
    ensures r >= 1
  {
    if k == 0 then 1 else 10 * Power10(k - 1)
  }

  /** `date.isoformat()`: "YYYY-MM-DD". */
  function IsoDate(d: Date): string
    requires ValidDate(d)
  {
    Padded(d.year, 4) + "-" + Padded(d.month, 2) + "-" + Padded(d.day, 2)
  }

  /** The ISO text of a date is always ten characters with dashes at
      positions 4 and 7. */
  lemma IsoDateShape(d: Date)
    requires ValidDate(d)
    ensures |IsoDate(d)| == 10 && IsoDate(d)[4] == '-' && IsoDate(d)[7] == '-'
  {
    assert Power10(4) == 10000 && Power10(2) == 100;
    DigitCount(d.year, 10000, 4);
    DigitCount(d.month, 100, 2);
    DigitCount(d.day, 100, 2);
  }

  // ---------------------------------------------------------------------
  // Create

  datatype CreateRequest = CreateRequest(orgId: string, name: string, nameKana: Option<string>,
                                         birthDate: Option<Date>, gender: Option<string>,
                                         address: Option<string>, phone: Option<string>,
                                         primaryDiagnosis: Option<string>, facility: Option<string>,
                                         area: Option<string>, careLevel: Option<string>,
                                         teamMemberIds: seq<string>)

  function OptText(o: Option<string>): Value {
    match o case Some(s) => VStr(s) case None => VNone
  }

  /** `patient_data` of `create_patient`, before the store adds its own
      fields. */
  function NewPatientData(req: CreateRequest, today: Date): Dict
    requires req.birthDate.Some? ==> ValidDate(req.birthDate.value)
  {
    var base := BaseData(req);
    match req.birthDate
    case None => base
    case Some(b) => Put(Put(base, "birth_date", VStr(IsoDate(b))), "age", VInt(Age(b, today)))
  }

  /** The fields every new patient gets, birth date aside. */
  function BaseData(req: CreateRequest): Dict {
    [("org_id", VStr(req.orgId)), ("name", VStr(req.name)), ("name_kana", OptText(req.nameKana)),
     ("gender", OptText(req.gender)), ("address", OptText(req.address)), ("phone", OptText(req.phone)),
     ("primary_diagnosis", OptText(req.primaryDiagnosis)), ("facility", OptText(req.facility)),
     ("area", OptText(req.area)), ("care_level", OptText(req.careLevel)), ("risk_level", VStr("low")),
     ("team_member_ids", VList(Strs(req.teamMemberIds)))]
  }

  lemma BaseRisk(req: CreateRequest)
    ensures Lookup(BaseData(req), "risk_level") == Some(VStr("low"))
  {
    var base := BaseData(req);
    assert forall j :: 0 <= j < 10 ==> base[j].0 != "risk_level";
    LookupAt(base, 10);
  }

  lemma BaseKeys(req: CreateRequest)
    ensures "age" !in Keys(BaseData(req)) && "birth_date" !in Keys(BaseData(req))
  {
    var base := BaseData(req);
    assert forall j :: 0 <= j < |base| ==> base[j].0 != "age" && base[j].0 != "birth_date";
  }

  /** A new patient starts at risk "low"; it has an age exactly when a
      birth date was given, and then the age of the age rule. */
  lemma NewPatientFields(req: CreateRequest, today: Date)
    requires req.birthDate.Some? ==> ValidDate(req.birthDate.value)
    ensures Lookup(NewPatientData(req, today), "risk_level") == Some(VStr("low"))
    ensures ("age" in Keys(NewPatientData(req, today))) <==> req.birthDate.Some?
    ensures req.birthDate.Some? ==>
              Lookup(NewPatientData(req, today), "age") == Some(VInt(Age(req.birthDate.value, today))) &&
              Lookup(NewPatientData(req, today), "birth_date") == Some(VStr(IsoDate(req.birthDate.value)))
  {
    var base := BaseData(req);
    BaseRisk(req);
    BaseKeys(req);
    match req.birthDate {
      case None =>
      case Some(b) =>
        var withBirth := Put(base, "birth_date", VStr(IsoDate(b)));
        LookupPut(base, "birth_date", VStr(IsoDate(b)), "risk_level");
        LookupPut(withBirth, "age", VInt(Age(b, today)), "risk_level");
        LookupPut(base, "birth_date", VStr(IsoDate(b)), "birth_date");
        LookupPut(withBirth, "age", VInt(Age(b, today)), "birth_date");
        LookupPut(withBirth, "age", VInt(Age(b, today)), "age");
    }
  }

  // ---------------------------------------------------------------------
  // Partial update

  /** A request field's value: text, or the birth date. */
  datatype Input = InText(s: string) | InDate(d: Date)

  datatype UpdateRequest = UpdateRequest(name: Option<string>, nameKana: Option<string>, birthDate: Option<Date>,
                                         gender: Option<string>, address: Option<string>, phone: Option<string>,
                                         primaryDiagnosis: Option<string>, facility: Option<string>,
                                         area: Option<string>, careLevel: Option<string>,
                                         status: Option<string>, riskLevel: Option<string>)

  function AsInput(o: Option<string>): Option<Input> {
    match o case Some(s) => Some(InText(s)) case None => None
  }

  /** `request.model_dump().items()`: every field in declaration order. */
  function Dump(r: UpdateRequest): seq<(string, Option<Input>)> {
    [("name", AsInput(r.name)), ("name_kana", AsInput(r.nameKana)),
     ("birth_date", match r.birthDate case Some(d) => Some(InDate(d)) case None => None),
     ("gender", AsInput(r.gender)), ("address", AsInput(r.address)), ("phone", AsInput(r.phone)),
     ("primary_diagnosis", AsInput(r.primaryDiagnosis)), ("facility", AsInput(r.facility)),
     ("area", AsInput(r.area)), ("care_level", AsInput(r.careLevel)),
     ("status", AsInput(r.status)), ("risk_level", AsInput(r.riskLevel))]
  }

  /** The shape every dumped request has: distinct names, none of them
      "age", and a date only under "birth_date", always valid. */
  predicate WellFormed(fields: seq<(string, Option<Input>)>) {
    && (forall i, j :: 0 <= i < j < |fields| ==> fields[i].0 != fields[j].0)
    && (forall i :: 0 <= i < |fields| ==> fields[i].0 != "age")
    && (forall i :: 0 <= i < |fields| && fields[i].1.Some? && fields[i].1.value.InDate? ==>
          fields[i].0 == "birth_date" && ValidDate(fields[i].1.value.d))
  }

  lemma DumpWellFormed(r: UpdateRequest)
    requires r.birthDate.Some? ==> ValidDate(r.birthDate.value)
    ensures WellFormed(Dump(r))
    ensures forall i :: 0 <= i < |Dump(r)| ==> Dump(r)[i].0 != "updated_at"
    ensures |Dump(r)| == 12 && Dump(r)[2].0 == "birth_date"
    ensures Dump(r)[2].1 == match r.birthDate case Some(d) => Some(InDate(d)) case None => None
  {
    DumpNamesDistinct(r);
    DumpDates(r);
  }

  lemma DumpNamesDistinct(r: UpdateRequest)
    ensures forall i, j :: 0 <= i < j < |Dump(r)| ==> Dump(r)[i].0 != Dump(r)[j].0
  {
    var names := ["name", "name_kana", "birth_date", "gender", "address", "phone", "primary_diagnosis",
                  "facility", "area", "care_level", "status", "risk_level"];
    assert forall i :: 0 <= i < 12 ==> Dump(r)[i].0 == names[i];
    assert forall i, j :: 0 <= i < j < 12 ==> names[i] != names[j];
  }

  lemma DumpDates(r: UpdateRequest)
    requires r.birthDate.Some? ==> ValidDate(r.birthDate.value)
    ensures forall i :: 0 <= i < |Dump(r)| ==> Dump(r)[i].0 != "age" && Dump(r)[i].0 != "updated_at"
    ensures forall i :: 0 <= i < |Dump(r)| && Dump(r)[i].1.Some? && Dump(r)[i].1.value.InDate? ==>
              Dump(r)[i].0 == "birth_date" && ValidDate(Dump(r)[i].1.value.d)
  {
  }

  /** `update_data` of a request. */
  function RequestUpdate(r: UpdateRequest, today: Date): Dict
    requires r.birthDate.Some? ==> ValidDate(r.birthDate.value)
  {
    DumpWellFormed(r);
    UpdateData(Dump(r), today)
  }

  /** The names `update_data` of a request is expected to hold. */
  function RequestNames(r: UpdateRequest): seq<string>
    requires r.birthDate.Some? ==> ValidDate(r.birthDate.value)
  {
    DumpWellFormed(r);
    GivenNames(Dump(r))
  }

  /** `update_data`: each non-null field under its name, in order; the
      birth date as ISO text followed by the age derived from it. */
  function UpdateData(fields: seq<(string, Option<Input>)>, today: Date): Dict
    requires WellFormed(fields)
  {
    if fields == [] then []
    else
      var init := fields[..|fields| - 1];
      var (name, v) := fields[|fields| - 1];
      assert WellFormed(init) by {
        assert forall i :: 0 <= i < |init| ==> init[i] == fields[i];
      }
      Step(UpdateData(init, today), name, v, today)
  }

  /** One pass of the field loop. */
  function Step(prev: Dict, name: string, v: Option<Input>, today: Date): Dict
    requires v.Some? && v.value.InDate? ==> ValidDate(v.value.d)
  {
    match v
    case None => prev
    case Some(InText(s)) => Put(prev, name, VStr(s))
    case Some(InDate(d)) => Put(Put(prev, name, VStr(IsoDate(d))), "age", VInt(Age(d, today)))
  }

  lemma StepLookup(prev: Dict, name: string, v: Option<Input>, today: Date, k: string)
    requires v.Some? && v.value.InDate? ==> ValidDate(v.value.d)
    ensures Lookup(Step(prev, name, v, today), k) ==
              match v
              case None => Lookup(prev, k)
              case Some(InText(s)) => if k == name then Some(VStr(s)) else Lookup(prev, k)
              case Some(InDate(d)) =>
                if k == "age" then Some(VInt(Age(d, today)))
                else if k == name then Some(VStr(IsoDate(d)))
                else Lookup(prev, k)
  {
    match v {
      case None =>
      case Some(InText(s)) =>
        LookupPut(prev, name, VStr(s), k);
      case Some(InDate(d)) =>
        LookupPut(prev, name, VStr(IsoDate(d)), k);
        LookupPut(Put(prev, name, VStr(IsoDate(d))), "age", VInt(Age(d, today)), k);
    }
  }

  lemma UpdateDataSnoc(fields: seq<(string, Option<Input>)>, today: Date)
    requires WellFormed(fields) && fields != []
    ensures WellFormed(fields[..|fields| - 1])
    ensures UpdateData(fields, today) ==
              Step(UpdateData(fields[..|fields| - 1], today), fields[|fields| - 1].0, fields[|fields| - 1].1, today)
  {
    var init := fields[..|fields| - 1];
    assert forall i :: 0 <= i < |init| ==> init[i] == fields[i];
  }

  /** The names `update_data` is expected to hold: the non-null fields in
      order, with "age" right after "birth_date". */
  function GivenNames(fields: seq<(string, Option<Input>)>): (r: seq<string>)
    requires WellFormed(fields)
    ensures forall k :: 0 <= k < |r| && r[k] != "age" ==> exists i :: 0 <= i < |fields| && fields[i].0 == r[k]
    ensures "age" in r ==> exists i :: 0 <= i < |fields| && fields[i].1.Some? && fields[i].1.value.InDate?
  {
    if fields == [] then []
    else
      var init := fields[..|fields| - 1];
      var (name, v) := fields[|fields| - 1];
      assert forall i :: 0 <= i < |init| ==> init[i] == fields[i];
      var prev := GivenNames(init);
      match v
      case None => prev
      case Some(InText(_)) => prev + [name]
      case Some(InDate(_)) => prev + [name, "age"]
  }

  /** `update_data` holds exactly the non-null fields (and the age), in
      order. */
  lemma {:induction false} UpdateDataKeys(fields: seq<(string, Option<Input>)>, today: Date)
    requires WellFormed(fields)
    ensures Keys(UpdateData(fields, today)) == GivenNames(fields)
  {
    if fields != [] {
      var init := fields[..|fields| - 1];
      var last := |fields| - 1;
      var (name, v) := fields[last];
      assert forall i :: 0 <= i < |init| ==> init[i] == fields[i];
      assert WellFormed(init);
      UpdateDataKeys(init, today);
      var prev := UpdateData(init, today);
      var names := GivenNames(init);
      assert name !in names;
      match v {
        case None =>
        case Some(InText(s)) =>
        case Some(InDate(d)) =>
          assert "age" !in names + [name];
          assert Keys(Put(prev, name, VStr(IsoDate(d)))) == names + [name];
      }
    }
  }

  /** A non-null text field is stored as given. */
  lemma {:induction false} TextFieldStored(fields: seq<(string, Option<Input>)>, today: Date, i: nat, s: string)
    requires WellFormed(fields) && i < |fields| && fields[i].1 == Some(InText(s))
    ensures Lookup(UpdateData(fields, today), fields[i].0) == Some(VStr(s))
  {
    var last := |fields| - 1;
    UpdateDataSnoc(fields, today);
    StepLookup(UpdateData(fields[..last], today), fields[last].0, fields[last].1, today, fields[i].0);
    if i < last {
      assert fields[..last][i] == fields[i];
      TextFieldStored(fields[..last], today, i, s);
    }
  }

  /** The birth date is stored as ISO text. */
  lemma {:induction false} BirthDateStored(fields: seq<(string, Option<Input>)>, today: Date, i: nat, d: Date)
    requires WellFormed(fields) && i < |fields| && fields[i].1 == Some(InDate(d))
    ensures ValidDate(d)
    ensures Lookup(UpdateData(fields, today), fields[i].0) == Some(VStr(IsoDate(d)))
  {
    var last := |fields| - 1;
    var name := fields[i].0;
    assert ValidDate(d) && name == "birth_date";
    UpdateDataSnoc(fields, today);
    var prev := UpdateData(fields[..last], today);
    StepLookup(prev, fields[last].0, fields[last].1, today, name);
    if i < last {
      assert fields[..last][i] == fields[i];
      BirthDateStored(fields[..last], today, i, d);
      assert fields[last].0 != name;
      assert Lookup(prev, name) == Some(VStr(IsoDate(d)));
    }
  }

  /** A given birth date stores the age derived from it. */
  lemma {:induction false} AgeStored(fields: seq<(string, Option<Input>)>, today: Date, i: nat, d: Date)
    requires WellFormed(fields) && i < |fields| && fields[i].1 == Some(InDate(d))
    ensures ValidDate(d)
    ensures Lookup(UpdateData(fields, today), "age") == Some(VInt(Age(d, today)))
  {
    var last := |fields| - 1;
    UpdateDataSnoc(fields, today);
    var prev := UpdateData(fields[..last], today);
    if i < last {
      assert fields[..last][i] == fields[i];
      AgeStored(fields[..last], today, i, d);
      OnlyOneDate(fields, i, last);
      AgeKept(prev, fields[last].0, fields[last].1, today);
    } else {
      StepLookup(prev, fields[last].0, fields[last].1, today, "age");
    }
  }

  /** A field other than a date leaves the stored age alone. */
  lemma AgeKept(prev: Dict, name: string, v: Option<Input>, today: Date)
    requires !(v.Some? && v.value.InDate?) && name != "age"
    ensures Lookup(Step(prev, name, v, today), "age") == Lookup(prev, "age")
  {
    StepLookup(prev, name, v, today, "age");
  }

  /** Only the birth date field carries a date, so no other field does. */
  lemma OnlyOneDate(fields: seq<(string, Option<Input>)>, i: nat, j: nat)
    requires WellFormed(fields) && i < j < |fields|
    requires fields[i].1.Some? && fields[i].1.value.InDate?
    ensures !(fields[j].1.Some? && fields[j].1.value.InDate?) && fields[j].0 != "age"
  {
    assert fields[i].0 == "birth_date" && fields[i].0 != fields[j].0;
  }

  /** A null field is not stored. */
  lemma {:induction false} NullFieldOmitted(fields: seq<(string, Option<Input>)>, today: Date, i: nat)
    requires WellFormed(fields) && i < |fields| && fields[i].1.None?
    ensures Lookup(UpdateData(fields, today), fields[i].0) == None
  {
    UpdateDataKeys(fields, today);
    var names := GivenNames(fields);
    assert fields[i].0 !in names by {
      NullNameNotGiven(fields, i);
    }
  }

  lemma {:induction false} NullNameNotGiven(fields: seq<(string, Option<Input>)>, i: nat)
    requires WellFormed(fields) && i < |fields| && fields[i].1.None?
    ensures fields[i].0 !in GivenNames(fields)
  {
    var last := |fields| - 1;
    var init := fields[..last];
    assert forall j :: 0 <= j < |init| ==> init[j] == fields[j];
    assert WellFormed(init);
    if i < last {
      NullNameNotGiven(init, i);
    } else {
      assert fields[i].0 !in GivenNames(init);
    }
  }

  /** Create and update store the same age for the same birth date. */
  lemma SameAgeOnCreateAndUpdate(c: CreateRequest, u: UpdateRequest, today: Date)
    requires c.birthDate.Some? && c.birthDate == u.birthDate && ValidDate(c.birthDate.value)
    ensures Lookup(NewPatientData(c, today), "age") == Lookup(RequestUpdate(u, today), "age")
  {
    DumpWellFormed(u);
    var fields := Dump(u);
    NewPatientFields(c, today);
    AgeStored(fields, today, 2, u.birthDate.value);
  }

  /** The field loop of `update_patient`. */
  method BuildUpdateData(fields: seq<(string, Option<Input>)>, today: Date) returns (data: Dict)
    requires WellFormed(fields)
    ensures data == UpdateData(fields, today)
  {
    data := [];
    var i := 0;
    while i < |fields|
      invariant 0 <= i <= |fields|
      invariant WellFormed(fields[..i])
      invariant data == UpdateData(fields[..i], today)
    {
      UpdatePrefixStep(fields, i, today);
      var (name, value) := fields[i];
      if value.Some? {
        if value.value.InDate? {
          var birth := value.value.d;
          data := Put(data, name, VStr(IsoDate(birth)));
          data := Put(data, "age", VInt(Age(birth, today)));
        } else {
          data := Put(data, name, VStr(value.value.s));
        }
      }
      i := i + 1;
    }
    assert fields[..i] == fields;
  }

  /** The prefix of the fields up to `i + 1` is one more pass of the
      loop over the prefix up to `i`. */
  lemma UpdatePrefixStep(fields: seq<(string, Option<Input>)>, i: nat, today: Date)
    requires WellFormed(fields) && i < |fields|
    ensures WellFormed(fields[..i]) && WellFormed(fields[..i + 1])
    ensures fields[i].1.Some? && fields[i].1.value.InDate? ==> ValidDate(fields[i].1.value.d)
    ensures UpdateData(fields[..i + 1], today) == Step(UpdateData(fields[..i], today), fields[i].0, fields[i].1, today)
  {
    assert fields[..i + 1][..i] == fields[..i];
    assert fields[..i + 1][i] == fields[i];
  }

  // ---------------------------------------------------------------------
  // The patient store

  /** Firestore's `update(data)`: every key of `data` set, in order. */
  function Merge(doc: Dict, updates: Dict): Dict {
    if updates == [] then doc
    else
      var last := updates[|updates| - 1];
      Put(Merge(doc, updates[..|updates| - 1]), last.0, last.1)
  }

  /** After a merge, an updated key reads its new value and any other key
      its old one. */
  lemma {:induction false} MergeLookup(doc: Dict, updates: Dict, k: string)
    requires UniqueKeys(updates)
    ensures Lookup(Merge(doc, updates), k) == if Lookup(updates, k).Some? then Lookup(updates, k) else Lookup(doc, k)
  {
    if updates != [] {
      var init := updates[..|updates| - 1];
      var last := updates[|updates| - 1];
      LastKeyFresh(updates);
      MergeLookup(doc, init, k);
      LookupPut(Merge(doc, init), last.0, last.1, k);
      LookupSnoc(init, last, k);
    }
  }

  class PatientStore {
    var patients: map<string, Dict>

    constructor (patients: map<string, Dict>)
      ensures this.patients == patients
    {
      this.patients := patients;
    }

    /** `get_patient`: the stored document with its id, `None` when there
        is none; a found patient is never empty. */
    function Find(pid: string): (r: Option<Dict>)
      reads this
      ensures r.Some? <==> pid in patients
      ensures r.Some? ==> r.value != [] && Lookup(r.value, "id") == Some(VStr(pid))
    {
      LookupPutFound(pid);
      if pid in patients then Some(Put(patients[pid], "id", VStr(pid))) else None
    }

    lemma LookupPutFound(pid: string)
      ensures pid in patients ==> Lookup(Put(patients[pid], "id", VStr(pid)), "id") == Some(VStr(pid))
    {
      if pid in patients {
        LookupPut(patients[pid], "id", VStr(pid), "id");
      }
    }

    /** `create_patient` as far as the store: the patient document, with
        the store's creation and update stamps and status "active", under
        the id the store chose. */
    method Create(req: CreateRequest, today: Date, newId: string, serverTime: Value)
      requires req.birthDate.Some? ==> ValidDate(req.birthDate.value)
      modifies this
      ensures patients == old(patients)[newId := Put(Put(Put(NewPatientData(req, today), "created_at", serverTime),
                                                        "updated_at", serverTime), "status", VStr("active"))]
    {
      var data := NewPatientData(req, today);
      data := Put(data, "created_at", serverTime);
      data := Put(data, "updated_at", serverTime);
      data := Put(data, "status", VStr("active"));
      patients := patients[newId := data];
    }

    /** `update_patient`: 404 for a missing patient; otherwise the
        non-null fields are written, with the store's update stamp, only
        when there is at least one. The store adds "updated_at" to the
        very dict the endpoint then lists, so a write reports
        "updated_at" among the updated fields. */
    method Update(pid: string, req: UpdateRequest, today: Date, serverTime: Value) returns (r: Result<seq<string>, nat>)
      requires req.birthDate.Some? ==> ValidDate(req.birthDate.value)
      modifies this
      ensures pid !in old(patients) ==> r == Err(404) && patients == old(patients)
      ensures pid in old(patients) ==>
                var data := RequestUpdate(req, today);
                if data == [] then r == Ok([]) && patients == old(patients)
                else r == Ok(RequestNames(req) + ["updated_at"]) &&
                     patients == old(patients)[pid := Merge(old(patients[pid]), data + [("updated_at", serverTime)])]
    {
      var found := Find(pid);
      if found.None? {
        return Err(404);
      }
      DumpWellFormed(req);
      var fields := Dump(req);
      var data := BuildUpdateData(fields, today);
      UpdateDataKeys(fields, today);
      assert data == RequestUpdate(req, today) && Keys(data) == RequestNames(req);
      if data != [] {
        assert "updated_at" !in Keys(data);
        var written := Put(data, "updated_at", serverTime);
        PutAbsentAppends(data, "updated_at", serverTime);
        patients := patients[pid := Merge(patients[pid], written)];
        r := Ok(Keys(written));
      } else {
        r := Ok(Keys(data));
      }
    }
  }

  lemma {:induction false} PutAbsentAppends(entries: Dict, k: string, v: Value)
    requires k !in Keys(entries)
    ensures Put(entries, k, v) == entries + [(k, v)]
  {
    if entries != [] {
      assert Keys(entries) == [entries[0].0] + Keys(entries[1..]);
      PutAbsentAppends(entries[1..], k, v);
    }
  }

  /** A request with every field null writes nothing and reports no
      field. */
  lemma EmptyRequestWritesNothing(today: Date)
    ensures RequestUpdate(UpdateRequest(None, None, None, None, None, None, None, None, None, None, None, None), today) == []
  {
    var none := UpdateRequest(None, None, None, None, None, None, None, None, None, None, None, None);
    DumpWellFormed(none);
    UpdateDataKeys(Dump(none), today);
    assert GivenNames(Dump(none)) == [] by {
      var fs := Dump(none);
      assert forall i :: 0 <= i < |fs| ==> fs[i].1 == None;
      NoNames(fs);
    }
  }

  lemma {:induction false} NoNames(fields: seq<(string, Option<Input>)>)
    requires WellFormed(fields) && forall i :: 0 <= i < |fields| ==> fields[i].1 == None
    ensures GivenNames(fields) == []
  {
    if fields != [] {
      var init := fields[..|fields| - 1];
      assert forall i :: 0 <= i < |init| ==> init[i] == fields[i];
      NoNames(init);
    }
  }
}
