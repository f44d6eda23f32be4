/**
 * The dashboard frame (remotes/dashboard/src/DashboardApp.jsx): patients and appointments
 * read from localStorage, mock appointments, counters, the two filtered tables, the
 * appointment actions, the status badge and the logout button.
 */
module DashboardRemote {
  import opened Base
  import opened Protocol
  import opened Browser
  import opened Seqs
  import Text

  const PatientsKey: string := "mf_patients"
  const AppointmentsKey: string := "mf_appointments"

  /** An `id` or `numeroDocumento` as stored: a number or a string. */
  datatype Ident = Num(n: int) | Str(s: string)

  /** JavaScript truthiness: 0 and the empty string are falsy. */
  predicate IdentTruthy(i: Ident) {
    match i
    case Num(n) => n != 0
    case Str(s) => s != ""
  }

  /** `.toString()`. */
  function IdentText(i: Ident): string {
    match i
    case Num(n) => Text.IntText(n)
    case Str(s) => s
  }

  /** A registered patient; None stands for a property that is `undefined` or `null`. */
  datatype Patient = Patient(id: Option<Ident>, nombres: Option<string>, apellidos: Option<string>,
                             numeroDocumento: Option<Ident>, email: Option<string>)

  datatype Appointment = Appointment(id: int, patientId: Ident, patientName: string, date: string,
                                     time: string, status: string, notes: string)

  /** The patient substituted when there are none. */
  const DefaultPatient: Patient := Patient(Some(Num(1)), Some("Juan"), Some("P\U{E9}rez"), Some(Str("123")), None)

  const Statuses: seq<string> := ["pending", "confirmed", "cancelled"]
  const KnownStatuses: set<string> := {"pending", "confirmed", "cancelled"}

  const DayMillis: int := 86400000

  /** `p.id || (p.numeroDocumento ?? \`p-${i}\`)`. */
  function SampleRef(p: Patient, i: nat): Ident {
    if p.id.Some? && IdentTruthy(p.id.value) then p.id.value
    else if p.numeroDocumento.Some? then p.numeroDocumento.value
    else Str("p-" + Text.Decimal(i))
  }

  /**
   * A clock: `clock(k)` is what the k-th call of `Date.now()` (or `new Date()`) returns.
   * It is monotone when no reading is earlier than one before it.
   */
  ghost predicate Monotone(clock: nat -> int) {
    forall a: nat, b: nat :: a <= b ==> clock(a) <= clock(b)
  }

  /**
   * The i-th mock appointment. Each entry reads the clock twice, for its `id` and then for
   * its `date`: readings 2i and 2i+1. `isoDay(ms)` is `new Date(ms).toISOString().slice(0, 10)`.
   */
  function MockAppointment(p: Patient, i: nat, clock: nat -> int, isoDay: int -> string): Appointment {
    Appointment(
      clock(2 * i) + i,
      SampleRef(p, i),
      Text.Trim(p.nombres.GetOr("N/A") + " " + p.apellidos.GetOr("")),
      isoDay(clock(2 * i + 1) + (i - 2) * DayMillis),
      Text.Decimal(9 + i % 8) + ":00",
      Statuses[i % 3],
      "Consulta " + Text.Decimal(i + 1))
  }

  /**
   * `sampleAppointments(patients)`: one mock per patient, at most six. The ids are distinct
   * (increasing, in fact) when the clock does not run backwards.
   */
  function SampleAppointments(patients: seq<Patient>, clock: nat -> int, isoDay: int -> string): (r: seq<Appointment>)
    ensures |r| == if patients == [] then 1 else Min(6, |patients|)
    ensures forall i :: 0 <= i < |r| ==>
      && r[i].status == Statuses[i % 3]
      && r[i].notes == "Consulta " + Text.Decimal(i + 1)
      && r[i].id == clock(2 * i) + i
    ensures forall i :: 0 <= i < |r| ==> r[i].status in KnownStatuses
    ensures Monotone(clock) ==> forall i, j :: 0 <= i < j < |r| ==> r[i].id < r[j].id
    ensures patients != [] ==> forall i :: 0 <= i < |r| ==> r[i].patientId == SampleRef(patients[i], i)
    ensures patients == [] ==> r[0].patientId == Num(1)
  {
    var pats := if patients != [] then patients else [DefaultPatient];
    var base := pats[..Min(6, |pats|)];
    var r := seq(|base|, i requires 0 <= i < |base| => MockAppointment(base[i], i, clock, isoDay));
    IdsIncrease(r, clock);
    r
  }

  /** Ids that are a monotone clock's even readings plus their index strictly increase. */
  lemma IdsIncrease(r: seq<Appointment>, clock: nat -> int)
    requires forall i :: 0 <= i < |r| ==> r[i].id == clock(2 * i) + i
    ensures Monotone(clock) ==> forall i, j :: 0 <= i < j < |r| ==> r[i].id < r[j].id
  {
    if Monotone(clock) {
      forall i, j | 0 <= i < j < |r|
        ensures r[i].id < r[j].id
      {
        assert clock(2 * i) <= clock(2 * j);
      }
    }
  }

  /** The counters of the summary cards. */
  datatype Counts = Counts(totalUsers: nat, totalAppointments: nat, confirmed: nat, cancelled: nat, pending: nat)

  function HasStatus(s: string): Appointment -> bool {
    (a: Appointment) => a.status == s
  }

  function UnknownStatus(): Appointment -> bool {
    (a: Appointment) => a.status !in KnownStatuses
  }

  /** `appointments.filter((a) => a.status === s).length`. */
  function CountStatus(appts: seq<Appointment>, s: string): nat {
    |Filter(appts, HasStatus(s))|
  }

  /** Every appointment is counted under exactly one of the three statuses, or under none. */
  lemma {:induction false} StatusPartition(appts: seq<Appointment>)
    ensures CountStatus(appts, "confirmed") + CountStatus(appts, "cancelled") + CountStatus(appts, "pending")
            + |Filter(appts, UnknownStatus())| == |appts|
    decreases |appts|
  {
    if appts != [] {
      StatusPartition(appts[1..]);
      CountsUnfold(appts);
    }
  }

  /** How the head of the list moves each of the four counters. */
  lemma CountsUnfold(appts: seq<Appointment>)
    requires appts != []
    ensures var x, rest := appts[0], appts[1..];
      && CountStatus(appts, "confirmed") == CountStatus(rest, "confirmed") + (if x.status == "confirmed" then 1 else 0)
      && CountStatus(appts, "cancelled") == CountStatus(rest, "cancelled") + (if x.status == "cancelled" then 1 else 0)
      && CountStatus(appts, "pending") == CountStatus(rest, "pending") + (if x.status == "pending" then 1 else 0)
      && |Filter(appts, UnknownStatus())| == |Filter(rest, UnknownStatus())| + (if x.status !in KnownStatuses then 1 else 0)
  {
    FilterUnfold(appts, HasStatus("confirmed"));
    FilterUnfold(appts, HasStatus("cancelled"));
    FilterUnfold(appts, HasStatus("pending"));
    FilterUnfold(appts, UnknownStatus());
  }

  /** `counts`: the three status counters never exceed the total, and add up to it exactly when every status is a known one. */
  function CountsOf(patients: seq<Patient>, appts: seq<Appointment>): (c: Counts)
    ensures c.totalUsers == |patients| && c.totalAppointments == |appts|
    ensures c.confirmed == CountStatus(appts, "confirmed")
    ensures c.cancelled == CountStatus(appts, "cancelled")
    ensures c.pending == CountStatus(appts, "pending")
    ensures c.confirmed + c.cancelled + c.pending <= c.totalAppointments
    ensures c.confirmed + c.cancelled + c.pending == c.totalAppointments
            <==> forall k :: 0 <= k < |appts| ==> appts[k].status in KnownStatuses
  {
    StatusPartition(appts);
    var unknown := Filter(appts, UnknownStatus());
    FilterMembers(appts, UnknownStatus());
    assert unknown != [] ==> unknown[0] in appts && UnknownStatus()(unknown[0]);
    Counts(|patients|, |appts|, CountStatus(appts, "confirmed"), CountStatus(appts, "cancelled"),
           CountStatus(appts, "pending"))
  }

  /** The freshly generated mocks are all counted. */
  lemma SampleFullyCounted(patients: seq<Patient>, clock: nat -> int, isoDay: int -> string)
    ensures var c := CountsOf(patients, SampleAppointments(patients, clock, isoDay));
            c.confirmed + c.cancelled + c.pending == c.totalAppointments
  {
  }

  /** The status select: `'all'` or one status. */
  function StatusKeep(filter: string): Appointment -> bool {
    (a: Appointment) => filter == "all" || a.status == filter
  }

  /** The text the appointment search looks in. */
  function AppointmentText(a: Appointment): string {
    a.patientName + " " + a.date + " " + a.time + " " + a.notes
  }

  function SearchKeep(q: string): Appointment -> bool {
    (a: Appointment) => q == "" || Text.Contains(Text.Lower(AppointmentText(a)), Text.Lower(q))
  }

  /** `filteredAppointments`: status filter, then search, both keeping the list's order. */
  function FilterAppointments(appts: seq<Appointment>, filter: string, q: string): (r: seq<Appointment>)
    ensures IsSubsequence(r, appts)
    ensures filter != "all" ==> forall k :: 0 <= k < |r| ==> r[k].status == filter
    ensures forall k :: 0 <= k < |r| ==> SearchKeep(q)(r[k])
    ensures forall a :: multiset(r)[a] == if StatusKeep(filter)(a) && SearchKeep(q)(a) then multiset(appts)[a] else 0
    ensures filter == "all" && q == "" ==> r == appts
  {
    TwoFiltersSubsequence(appts, StatusKeep(filter), SearchKeep(q));
    var byStatus := Filter(appts, StatusKeep(filter));
    FilterMultiset(appts, StatusKeep(filter));
    FilterMultiset(byStatus, SearchKeep(q));
    Filter(byStatus, SearchKeep(q))
  }

  /** One patient matches the lower-cased query in a name, the document or the email. */
  function PatientKeep(q: string): Patient -> bool {
    (p: Patient) => || Text.Contains(Text.Lower(p.nombres.GetOr("")), q)
         || Text.Contains(Text.Lower(p.apellidos.GetOr("")), q)
         || Text.Contains(Text.Lower(if p.numeroDocumento.Some? then IdentText(p.numeroDocumento.value) else ""), q)
         || Text.Contains(Text.Lower(p.email.GetOr("")), q)
  }

  /** `filteredPatients`: the whole list for an empty search, else the matching patients in order. */
  function FilterPatients(patients: seq<Patient>, search: string): (r: seq<Patient>)
    ensures search == "" ==> r == patients
    ensures IsSubsequence(r, patients)
    ensures search != "" ==> forall k :: 0 <= k < |r| ==> PatientKeep(Text.Lower(search))(r[k])
    ensures search != "" ==>
      forall p :: multiset(r)[p] == if PatientKeep(Text.Lower(search))(p) then multiset(patients)[p] else 0
  {
    if search == "" then
      var all := (p: Patient) => true;
      assert Filter(patients, all) == patients;
      FilterSubsequence(patients, all);
      patients
    else
      FilterSubsequence(patients, PatientKeep(Text.Lower(search)));
      FilterMultiset(patients, PatientKeep(Text.Lower(search)));
      Filter(patients, PatientKeep(Text.Lower(search)))
  }

  /** The `map` in `updateAppointmentStatus`: entries with that id take the new status, nothing else moves or changes. */
  function UpdateStatus(appts: seq<Appointment>, id: int, s: string): (r: seq<Appointment>)
    ensures |r| == |appts|
    ensures forall k :: 0 <= k < |r| ==> r[k].(status := appts[k].status) == appts[k]
    ensures forall k :: 0 <= k < |r| ==> r[k].status == if appts[k].id == id then s else appts[k].status
  {
    seq(|appts|, k requires 0 <= k < |appts| => if appts[k].id == id then appts[k].(status := s) else appts[k])
  }

  /** Confirming (or cancelling) twice is confirming once. */
  lemma UpdateStatusIdempotent(appts: seq<Appointment>, id: int, s: string)
    ensures UpdateStatus(UpdateStatus(appts, id, s), id, s) == UpdateStatus(appts, id, s)
  {
  }

  function MovesTo(id: int, s: string): Appointment -> bool {
    (a: Appointment) => a.id == id && a.status != s
  }

  /** The counter for `s` grows by exactly the entries with that id that did not have `s` already. */
  lemma {:induction false} UpdateStatusCount(appts: seq<Appointment>, id: int, s: string)
    ensures CountStatus(UpdateStatus(appts, id, s), s) == CountStatus(appts, s) + |Filter(appts, MovesTo(id, s))|
    decreases |appts|
  {
    if appts != [] {
      UpdateStatusCount(appts[1..], id, s);
      var r := UpdateStatus(appts, id, s);
      assert r[1..] == UpdateStatus(appts[1..], id, s);
    }
  }

  /**
   * `patient.id || patient.numeroDocumento || \`p-${tag}\``: each `||` skips a falsy value,
   * so an id of 0 or "" falls through to the document, and an empty document to the tag.
   */
  function CreatedRef(patient: Patient, tag: string): Ident {
    if patient.id.Some? && IdentTruthy(patient.id.value) then patient.id.value
    else if patient.numeroDocumento.Some? && IdentTruthy(patient.numeroDocumento.value) then patient.numeroDocumento.value
    else Str("p-" + tag)
  }

  /**
   * `createAppointmentForPatient`: a pending 10:00 appointment at the head. Its `id` is the
   * first clock reading and its `date` the second; `tag` stands for the random suffix.
   */
  function CreateAppointment(appts: seq<Appointment>, patient: Patient, clock: nat -> int, isoDay: int -> string, tag: string): (r: seq<Appointment>)
    ensures |r| == |appts| + 1 && r[1..] == appts
    ensures r[0].status == "pending" && r[0].time == "10:00" && r[0].id == clock(0)
    ensures r[0].notes == "Cita creada desde dashboard" && r[0].date == isoDay(clock(1))
    ensures r[0].patientId == CreatedRef(patient, tag)
    ensures r[0].patientName == Text.Trim(patient.nombres.GetOr("") + " " + patient.apellidos.GetOr(""))
  {
    var created := Appointment(clock(0), CreatedRef(patient, tag), Text.Trim(patient.nombres.GetOr("") + " " + patient.apellidos.GetOr("")),
                               isoDay(clock(1)), "10:00", "pending", "Cita creada desde dashboard");
    [created] + appts
  }

  /** A new appointment adds one to the pending counter and leaves the others alone. */
  lemma CreateCountsPending(appts: seq<Appointment>, patient: Patient, clock: nat -> int, isoDay: int -> string, tag: string)
    ensures var r := CreateAppointment(appts, patient, clock, isoDay, tag);
      && CountStatus(r, "pending") == CountStatus(appts, "pending") + 1
      && CountStatus(r, "confirmed") == CountStatus(appts, "confirmed")
      && CountStatus(r, "cancelled") == CountStatus(appts, "cancelled")
  {
    var r := CreateAppointment(appts, patient, clock, isoDay, tag);
    assert r == [r[0]] + appts;
  }

  /** What `StatusBadge` shows. */
  datatype Badge = ConfirmedBadge | CancelledBadge | PendingBadge | BlankBadge

  /** Property names every object inherits: `map[status]` finds a truthy value there that has no text. */
  const ObjectPrototypeKeys: set<string> := {
    "constructor", "hasOwnProperty", "isPrototypeOf", "propertyIsEnumerable", "toLocaleString",
    "toString", "valueOf", "__proto__", "__defineGetter__", "__defineSetter__",
    "__lookupGetter__", "__lookupSetter__"
  }

  /** `map[status] || map.pending`. */
  function BadgeFor(status: string): (b: Badge)
    ensures b == ConfirmedBadge <==> status == "confirmed"
    ensures b == CancelledBadge <==> status == "cancelled"
    ensures b == BlankBadge <==> status in ObjectPrototypeKeys
    ensures status !in KnownStatuses && status !in ObjectPrototypeKeys ==> b == PendingBadge
  {
    if status == "confirmed" then ConfirmedBadge
    else if status == "cancelled" then CancelledBadge
    else if status == "pending" then PendingBadge
    else if status in ObjectPrototypeKeys then BlankBadge
    else PendingBadge
  }

  function BadgeText(b: Badge): string {
    match b
    case ConfirmedBadge => "Confirmada"
    case CancelledBadge => "Cancelada"
    case PendingBadge => "Pendiente"
    case BlankBadge => ""
  }

  /**
   * `JSON.stringify` of an appointment list and `JSON.parse` of the two stored lists, which
   * this model leaves abstract. `decodeAppointments` gives None for a falsy JSON value.
   */
  datatype Codec = Codec(encode: seq<Appointment> -> string,
                         decodeAppointments: string -> Result<Option<seq<Appointment>>>,
                         decodePatients: string -> Result<seq<Patient>>)

  /** What a faithful JSON codec satisfies. */
  ghost predicate Lawful(c: Codec) {
    && c.decodePatients("[]") == Ok([])
    && c.decodeAppointments("null") == Ok(None)
    && forall a :: c.decodeAppointments(c.encode(a)) == Ok(Some(a))
  }

  /** The `DashboardApp` component's state. */
  class Dashboard {
    var patients: seq<Patient>
    var appointments: seq<Appointment>
    var filter: string
    var searchPatient: string
    var searchAppointment: string
    const storage: Storage
    const parent: Channel

    constructor (storage: Storage, parent: Channel)
      ensures patients == [] && appointments == [] && filter == "all"
      ensures searchPatient == "" && searchAppointment == ""
      ensures this.storage == storage && this.parent == parent
    {
      patients, appointments, filter := [], [], "all";
      searchPatient, searchAppointment := "", "";
      this.storage := storage;
      this.parent := parent;
    }

    /**
     * The mount effect: read both lists; with no stored appointments, generate mocks and
     * store them; any parse failure leaves both lists empty.
     */
    method Load(codec: Codec, clock: nat -> int, isoDay: int -> string)
      modifies this`patients, this`appointments, storage
      ensures var pText := GetOr(old(storage.items), PatientsKey, "[]");
              var aText := GetOr(old(storage.items), AppointmentsKey, "null");
              var ps := codec.decodePatients(pText);
              var as_ := codec.decodeAppointments(aText);
              && (ps.Err? || as_.Err? ==> patients == [] && appointments == [] && storage.items == old(storage.items))
              && (ps.Ok? && as_.Ok? ==> patients == ps.value)
              && (ps.Ok? && as_ == Ok(None) ==>
                    && appointments == SampleAppointments(ps.value, clock, isoDay)
                    && storage.items == old(storage.items)[AppointmentsKey := codec.encode(appointments)])
              && (ps.Ok? && as_.Ok? && as_.value.Some? ==>
                    appointments == as_.value.value && storage.items == old(storage.items))
              && (Lawful(codec) && ps.Ok? && as_.Ok? ==>
                    && AppointmentsKey in storage.items
                    && codec.decodeAppointments(storage.items[AppointmentsKey]) == Ok(Some(appointments)))
    {
      var pText := GetOr(storage.items, PatientsKey, "[]");
      var ps := codec.decodePatients(pText);
      if ps.Err? {
        patients, appointments := [], [];
        return;
      }
      patients := ps.value;
      var aText := GetOr(storage.items, AppointmentsKey, "null");
      var as_ := codec.decodeAppointments(aText);
      if as_.Err? {
        patients, appointments := [], [];
        return;
      }
      var a: seq<Appointment>;
      if as_.value.None? {
        a := SampleAppointments(ps.value, clock, isoDay);
        storage.SetItem(AppointmentsKey, codec.encode(a));
      } else {
        a := as_.value.value;
      }
      appointments := a;
    }

    /** `saveAppointments`: state and storage get the same list. */
    method SaveAppointments(codec: Codec, next: seq<Appointment>)
      modifies this`appointments, storage
      ensures appointments == next
      ensures storage.items == old(storage.items)[AppointmentsKey := codec.encode(next)]
      ensures Lawful(codec) ==> codec.decodeAppointments(storage.items[AppointmentsKey]) == Ok(Some(appointments))
    {
      appointments := next;
      storage.SetItem(AppointmentsKey, codec.encode(next));
    }

    /** The Confirmar / Cancelar buttons. */
    method UpdateAppointmentStatus(codec: Codec, id: int, s: string)
      modifies this`appointments, storage
      ensures appointments == UpdateStatus(old(appointments), id, s)
      ensures storage.items == old(storage.items)[AppointmentsKey := codec.encode(appointments)]
    {
      SaveAppointments(codec, UpdateStatus(appointments, id, s));
    }

    method CreateAppointmentForPatient(codec: Codec, patient: Patient, clock: nat -> int, isoDay: int -> string, tag: string)
      modifies this`appointments, storage
      ensures appointments == CreateAppointment(old(appointments), patient, clock, isoDay, tag)
      ensures storage.items == old(storage.items)[AppointmentsKey := codec.encode(appointments)]
    {
      SaveAppointments(codec, CreateAppointment(appointments, patient, clock, isoDay, tag));
    }

    /** "Crear cita demo": an appointment for the first patient the search shows, if any. */
    method CreateDemo(codec: Codec, clock: nat -> int, isoDay: int -> string, tag: string)
      modifies this`appointments, storage
      ensures var shown := FilterPatients(patients, searchPatient);
              && (shown == [] ==> appointments == old(appointments) && storage.items == old(storage.items))
              && (shown != [] ==>
                    && appointments == CreateAppointment(old(appointments), shown[0], clock, isoDay, tag)
                    && storage.items == old(storage.items)[AppointmentsKey := codec.encode(appointments)])
    {
      var shown := FilterPatients(patients, searchPatient);
      if |shown| > 0 {
        CreateAppointmentForPatient(codec, shown[0], clock, isoDay, tag);
      }
    }

    method SetFilter(f: string)
      modifies this`filter
      ensures filter == f
    {
      filter := f;
    }

    method SetSearchPatient(q: string)
      modifies this`searchPatient
      ensures searchPatient == q
    {
      searchPatient := q;
    }

    method SetSearchAppointment(q: string)
      modifies this`searchAppointment
      ensures searchAppointment == q
    {
      searchAppointment := q;
    }

    /** The header's logout button: clear the session keys of this frame's storage and post LOGOUT once. */
    method Logout()
      modifies storage, parent
      ensures storage.items == old(storage.items) - {TokenKey, UserKey}
      ensures parent.pending == old(parent.pending) + [Protocol.Logout]
    {
      storage.RemoveItem(TokenKey);
      storage.RemoveItem(UserKey);
      parent.Post(Protocol.Logout);
    }
  }
}
