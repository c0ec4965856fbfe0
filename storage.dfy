/** The ledger logic of the storage service (services/storage.ts) as pure
    functions over the stored member and attendance lists. Each function
    takes what the source reads from the store and returns what it writes
    back, or the message of the error it throws. Values the source reads
    from the clock (`Date.now()` ids, ISO times) are parameters. */
module Storage {

  import opened Wrappers
  import opened Seqs
  import opened Types

  const MemberNotFound := "회원을 찾을 수 없습니다."
  const InsufficientTickets := "수강권이 부족합니다."
  const AttendanceNotFound := "출결 기록을 찾을 수 없습니다."
  const CheckInNote := "출석 체크"
  const InitialTicketNote := "최초 등록"
  const InitialPromotionNote := "Initial Registration"
  const InitialHistoryId := "initial"
  const DummyPrefix := "dummy-"

  /** An id and an ISO-8601 time taken from the clock at one instant. */
  datatype Stamp = Stamp(id: string, time: string)

  // ---------------------------------------------------------------------
  // Phone-suffix lookup (storage.ts:41-47)

  predicate IsDigit(c: char)
  {
    '0' <= c <= '9'
  }

  /** `phone.replace(/[^0-9]/g, '')`: the digits of `s`, in order. */
  function DigitsOnly(s: string): (r: string)
    ensures forall i :: 0 <= i < |r| ==> IsDigit(r[i])
    ensures forall c :: c in r <==> c in s && IsDigit(c)
  {
    Filter(s, IsDigit)
  }

  predicate IsActive(m: Member)
  {
    m.status == Active
  }

  function PhoneEndsWith(suffix: string): Member -> bool
  {
    (m: Member) => EndsWith(DigitsOnly(m.phone), suffix)
  }

  /** `getMembersByPhoneSuffix`: the active members, then those whose phone,
      stripped of non-digits, ends with `suffix`. The query is not stripped. */
  function MembersByPhoneSuffix(members: seq<Member>, suffix: string): (r: seq<Member>)
    ensures forall m :: m in r <==> m in members && m.status == Active && EndsWith(DigitsOnly(m.phone), suffix)
    ensures |r| <= |members|
  {
    Filter(Filter(members, IsActive), PhoneEndsWith(suffix))
  }

  // ---------------------------------------------------------------------
  // Finding and replacing by id

  function MemberWithId(id: string): Member -> bool
  {
    (m: Member) => m.id == id
  }

  /** `members.find(m => m.id === id)`, as the index of the first hit. */
  function FindMember(members: seq<Member>, id: string): (r: Option<nat>)
    ensures r.Some? ==> r.value < |members| && members[r.value].id == id
    ensures r.Some? ==> forall j :: 0 <= j < r.value ==> members[j].id != id
    ensures r.None? <==> forall j :: 0 <= j < |members| ==> members[j].id != id
  {
    FirstIndex(members, MemberWithId(id))
  }

  function RecordWithId(id: string): AttendanceRecord -> bool
  {
    (a: AttendanceRecord) => a.id == id
  }

  /** `attendance.find(a => a.id === id)`, as the index of the first hit. */
  function FindRecord(attendance: seq<AttendanceRecord>, id: string): (r: Option<nat>)
    ensures r.Some? ==> r.value < |attendance| && attendance[r.value].id == id
    ensures r.Some? ==> forall j :: 0 <= j < r.value ==> attendance[j].id != id
    ensures r.None? <==> forall j :: 0 <= j < |attendance| ==> attendance[j].id != id
  {
    FirstIndex(attendance, RecordWithId(id))
  }

  /** `updateMember`: every stored member carrying `u`'s id becomes `u`;
      the others, the length and the order stay as they were. */
  function ReplaceById(members: seq<Member>, u: Member): (r: seq<Member>)
    ensures |r| == |members|
    ensures forall j :: 0 <= j < |r| ==> r[j].id == members[j].id
    ensures forall j :: 0 <= j < |r| && members[j].id != u.id ==> r[j] == members[j]
    ensures forall j :: 0 <= j < |r| && members[j].id == u.id ==> r[j] == u
  {
    seq(|members|, j requires 0 <= j < |members| => if members[j].id == u.id then u else members[j])
  }

  // ---------------------------------------------------------------------
  // addMember (storage.ts:53-87)

  /** What a caller of `addMember` passes: a member without an id. Fields the
      source reads with `|| default` are optional here. */
  datatype MemberDraft = MemberDraft(
    name: string,
    phone: string,
    joinDate: string,
    totalTickets: int,
    remainingTickets: int,
    status: Status,
    belt: Option<Belt>,
    stripes: Option<Stripes>,
    memo: string,
    faceImages: seq<string>)

  /** The record `addMember` stores for `draft`, given the id and the date
      and time it reads from the clock. */
  function NewMember(draft: MemberDraft, id: string, today: string, now: string): (m: Member)
    ensures m.id == id && m.name == draft.name && m.phone == draft.phone
    ensures m.status == draft.status && m.faceImages == draft.faceImages && m.memo == draft.memo
    ensures m.totalTickets == draft.totalTickets && m.remainingTickets == draft.remainingTickets
    ensures m.joinDate == if draft.joinDate == "" then today else draft.joinDate
    ensures m.belt == (if draft.belt.Some? then draft.belt.value else White)
    ensures m.stripes == (if draft.stripes.Some? then draft.stripes.value else 0)
    ensures m.promotionHistory == [Promotion(m.joinDate, m.belt, m.stripes, InitialPromotionNote)]
    ensures m.ticketHistory == [TicketHistory(InitialHistoryId, now, Add, draft.totalTickets, m.remainingTickets, InitialTicketNote)]
  {
    var joinDate := if draft.joinDate == "" then today else draft.joinDate;
    var belt := match draft.belt case Some(b) => b case None => White;
    var stripes := match draft.stripes case Some(s) => s case None => 0;
    Member(
      id, draft.name, draft.phone, joinDate,
      draft.totalTickets, draft.remainingTickets, draft.status,
      belt, stripes,
      [Promotion(joinDate, belt, stripes, InitialPromotionNote)],
      draft.memo, draft.faceImages,
      [TicketHistory(InitialHistoryId, now, Add, draft.totalTickets, draft.remainingTickets, InitialTicketNote)])
  }

  // ---------------------------------------------------------------------
  // addAttendance (storage.ts:99-134)

  /** What a successful check-in writes (the new lists) and returns. */
  datatype CheckIn = CheckIn(
    members: seq<Member>,
    attendance: seq<AttendanceRecord>,
    member: Member,
    record: AttendanceRecord)

  /** Check-in: one ticket is used, one `'use'` history entry is appended,
      and one attendance record is put at the front of the list. */
  function AddAttendance(members: seq<Member>, attendance: seq<AttendanceRecord>, memberId: string, entry: Stamp, rec: Stamp): (r: Result<CheckIn>)
    ensures FindMember(members, memberId).None? ==> r == Err(MemberNotFound)
    ensures FindMember(members, memberId).Some? && members[FindMember(members, memberId).value].remainingTickets <= 0
      ==> r == Err(InsufficientTickets)
    ensures r.Ok? <==>
      FindMember(members, memberId).Some? && members[FindMember(members, memberId).value].remainingTickets > 0
    ensures r.Ok? ==>
      var m := members[FindMember(members, memberId).value];
      var u := r.value.member;
      && u.remainingTickets == m.remainingTickets - 1
      && u.ticketHistory == m.ticketHistory + [TicketHistory(entry.id, entry.time, Use, 1, u.remainingTickets, CheckInNote)]
      && u == m.(remainingTickets := u.remainingTickets, ticketHistory := u.ticketHistory)
      && r.value.members == ReplaceById(members, u)
      && r.value.record == AttendanceRecord(rec.id, memberId, m.name, rec.time)
      && r.value.attendance == [r.value.record] + attendance
  {
    match FindMember(members, memberId)
    case None => Err(MemberNotFound)
    case Some(k) =>
      var m := members[k];
      if m.remainingTickets <= 0 then Err(InsufficientTickets)
      else
        var balance := m.remainingTickets - 1;
        var updated := m.(
          remainingTickets := balance,
          ticketHistory := m.ticketHistory + [TicketHistory(entry.id, entry.time, Use, 1, balance, CheckInNote)]);
        var record := AttendanceRecord(rec.id, memberId, m.name, rec.time);
        Ok(CheckIn(ReplaceById(members, updated), [record] + attendance, updated, record))
  }

  // ---------------------------------------------------------------------
  // getCurrentMember (storage.ts:144-148)

  /** The member the stored current id names. An absent or empty stored id
      (both falsy in the source) gives no member, as does an unknown id. */
  function CurrentMember(members: seq<Member>, currentId: Option<string>): (r: Option<Member>)
    ensures r.Some? <==> currentId.Some? && currentId.value != "" && FindMember(members, currentId.value).Some?
    ensures r.Some? ==> r.value == members[FindMember(members, currentId.value).value]
  {
    match currentId
    case None => None
    case Some(id) =>
      if id == "" then None
      else match FindMember(members, id)
        case None => None
        case Some(k) => Some(members[k])
  }

  // ---------------------------------------------------------------------
  // deleteAttendance (storage.ts:151-185)

  datatype AttendanceDeletion = AttendanceDeletion(
    members: seq<Member>,
    attendance: seq<AttendanceRecord>,
    deleted: AttendanceRecord)

  function RecordIdIsNot(id: string): AttendanceRecord -> bool
  {
    (a: AttendanceRecord) => a.id != id
  }

  /** Deleting an attendance record: every record with the id goes, and when
      `refundTicket` is set and the record's member exists, that member gets
      one ticket back with a `'refund'` entry. `refundNote` is the note the
      source formats from the record's date. */
  function DeleteAttendance(
    members: seq<Member>, attendance: seq<AttendanceRecord>, attendanceId: string,
    refundTicket: bool, entry: Stamp, refundNote: string): (r: Result<AttendanceDeletion>)
    ensures r.Err? <==> FindRecord(attendance, attendanceId).None?
    ensures r.Err? ==> r.error == AttendanceNotFound
    ensures r.Ok? ==>
      && r.value.deleted == attendance[FindRecord(attendance, attendanceId).value]
      && r.value.deleted.id == attendanceId
      && (forall a :: a in r.value.attendance <==> a in attendance && a.id != attendanceId)
      && r.value.attendance == Filter(attendance, RecordIdIsNot(attendanceId))
    ensures r.Ok? && (!refundTicket || FindMember(members, r.value.deleted.memberId).None?) ==>
      r.value.members == members
    ensures r.Ok? && refundTicket && FindMember(members, r.value.deleted.memberId).Some? ==>
      var m := members[FindMember(members, r.value.deleted.memberId).value];
      var u := m.(
        remainingTickets := m.remainingTickets + 1,
        ticketHistory := m.ticketHistory + [TicketHistory(entry.id, entry.time, Refund, 1, m.remainingTickets + 1, refundNote)]);
      r.value.members == ReplaceById(members, u)
  {
    match FindRecord(attendance, attendanceId)
    case None => Err(AttendanceNotFound)
    case Some(i) =>
      var record := attendance[i];
      var members' :=
        if !refundTicket then members
        else match FindMember(members, record.memberId)
          case None => members
          case Some(k) =>
            var m := members[k];
            ReplaceById(members, m.(
              remainingTickets := m.remainingTickets + 1,
              ticketHistory := m.ticketHistory + [TicketHistory(entry.id, entry.time, Refund, 1, m.remainingTickets + 1, refundNote)]));
      Ok(AttendanceDeletion(members', Filter(attendance, RecordIdIsNot(attendanceId)), record))
  }

  // ---------------------------------------------------------------------
  // clearDummyMembers (storage.ts:227-230)

  predicate IsNotDummy(m: Member)
  {
    !StartsWith(m.id, DummyPrefix)
  }

  /** The members whose id does not start with `dummy-`, in order. */
  function ClearDummyMembers(members: seq<Member>): (r: seq<Member>)
    ensures forall m :: m in r <==> m in members && !StartsWith(m.id, DummyPrefix)
  {
    Filter(members, IsNotDummy)
  }

  // ---------------------------------------------------------------------
  // deleteMember (storage.ts:233-249)

  datatype MemberDeletion = MemberDeletion(
    members: seq<Member>,
    attendance: seq<AttendanceRecord>,
    deleted: Member)

  function MemberIdIsNot(id: string): Member -> bool
  {
    (m: Member) => m.id != id
  }

  function RecordNotOf(memberId: string): AttendanceRecord -> bool
  {
    (a: AttendanceRecord) => a.memberId != memberId
  }

  /** Deleting a member removes every member with that id and, with them,
      every attendance record of that member id. */
  function DeleteMember(members: seq<Member>, attendance: seq<AttendanceRecord>, memberId: string): (r: Result<MemberDeletion>)
    ensures r.Err? <==> FindMember(members, memberId).None?
    ensures r.Err? ==> r.error == MemberNotFound
    ensures r.Ok? ==>
      && r.value.deleted == members[FindMember(members, memberId).value]
      && (forall m :: m in r.value.members <==> m in members && m.id != memberId)
      && (forall a :: a in r.value.attendance <==> a in attendance && a.memberId != memberId)
      && r.value.members == Filter(members, MemberIdIsNot(memberId))
      && r.value.attendance == Filter(attendance, RecordNotOf(memberId))
  {
    match FindMember(members, memberId)
    case None => Err(MemberNotFound)
    case Some(k) =>
      Ok(MemberDeletion(Filter(members, MemberIdIsNot(memberId)), Filter(attendance, RecordNotOf(memberId)), members[k]))
  }

  // ---------------------------------------------------------------------
  // addTickets (storage.ts:252-281) and manualAdjustTickets (storage.ts:283-311)

  datatype TicketUpdate = TicketUpdate(members: seq<Member>, member: Member)

  function DigitChar(d: nat): (c: char)
    requires d < 10
    ensures IsDigit(c)
  {
    ('0' as int + d) as char
  }

  /** The decimal numeral of `n`, as JavaScript's template literal writes it. */
  function NatToDecimal(n: nat): (r: string)
    ensures |r| > 0
    ensures forall i :: 0 <= i < |r| ==> IsDigit(r[i])
    ensures n > 0 ==> r[0] != '0'
    decreases n
  {
    if n < 10 then [DigitChar(n)] else NatToDecimal(n / 10) + [DigitChar(n % 10)]
  }

  function IntToDecimal(i: int): string
  {
    if i < 0 then "-" + NatToDecimal(-i) else NatToDecimal(i)
  }

  const TopUpNotePrefix := "수강권 "
  const TopUpNoteSuffix := "회 충전"

  /** The note `addTickets` writes when the caller gives none: the amount's
      numeral between a fixed prefix and suffix. */
  function TopUpNote(amount: int): (r: string)
    ensures StartsWith(r, TopUpNotePrefix) && EndsWith(r, TopUpNoteSuffix)
    ensures |r| == |TopUpNotePrefix| + |IntToDecimal(amount)| + |TopUpNoteSuffix|
    ensures r[|TopUpNotePrefix|..|r| - |TopUpNoteSuffix|] == IntToDecimal(amount)
  {
    TopUpNotePrefix + IntToDecimal(amount) + TopUpNoteSuffix
  }

  /** Top-up: balance and total both grow by `amount`, with an `'add'` entry.
      An empty `note` is the source's absent one. */
  function AddTickets(members: seq<Member>, memberId: string, amount: int, note: string, entry: Stamp): (r: Result<TicketUpdate>)
    ensures r.Err? <==> FindMember(members, memberId).None?
    ensures r.Err? ==> r.error == MemberNotFound
    ensures r.Ok? ==>
      var m := members[FindMember(members, memberId).value];
      var u := r.value.member;
      && u.remainingTickets == m.remainingTickets + amount
      && u.totalTickets == m.totalTickets + amount
      && u.ticketHistory == m.ticketHistory + [TicketHistory(entry.id, entry.time, Add, amount, u.remainingTickets,
                                                             if note == "" then TopUpNote(amount) else note)]
      && u == m.(remainingTickets := u.remainingTickets, totalTickets := u.totalTickets, ticketHistory := u.ticketHistory)
      && r.value.members == ReplaceById(members, u)
  {
    match FindMember(members, memberId)
    case None => Err(MemberNotFound)
    case Some(k) =>
      var m := members[k];
      var balance := m.remainingTickets + amount;
      var total := m.totalTickets + amount;
      var updated := m.(
        remainingTickets := balance,
        totalTickets := total,
        ticketHistory := m.ticketHistory + [TicketHistory(entry.id, entry.time, Add, amount, balance,
                                                          if note == "" then TopUpNote(amount) else note)]);
      Ok(TicketUpdate(ReplaceById(members, updated), updated))
  }

  /** Manual correction: the balance moves by `amount` but never below zero,
      the total grows only for a positive amount, and the history entry is an
      `'add'` of `amount` or a `'use'` of `-amount`. */
  function ManualAdjustTickets(members: seq<Member>, memberId: string, amount: int, note: string, entry: Stamp): (r: Result<TicketUpdate>)
    ensures r.Err? <==> FindMember(members, memberId).None?
    ensures r.Err? ==> r.error == MemberNotFound
    ensures r.Ok? ==>
      var m := members[FindMember(members, memberId).value];
      var u := r.value.member;
      && u.remainingTickets >= 0
      && (m.remainingTickets + amount >= 0 ==> u.remainingTickets == m.remainingTickets + amount)
      && (m.remainingTickets + amount < 0 ==> u.remainingTickets == 0)
      && (amount > 0 ==> u.totalTickets == m.totalTickets + amount)
      && (amount <= 0 ==> u.totalTickets == m.totalTickets)
      && |u.ticketHistory| == |m.ticketHistory| + 1
      && u.ticketHistory[..|m.ticketHistory|] == m.ticketHistory
      && (var e := u.ticketHistory[|m.ticketHistory|];
          && (e.kind == Add <==> amount > 0)
          && (e.kind == Use <==> amount <= 0)
          && e.amount >= 0
          && (e.amount == amount || e.amount == -amount)
          && e.balance == u.remainingTickets
          && e.id == entry.id && e.date == entry.time && e.note == note)
      && u == m.(remainingTickets := u.remainingTickets, totalTickets := u.totalTickets, ticketHistory := u.ticketHistory)
      && r.value.members == ReplaceById(members, u)
  {
    match FindMember(members, memberId)
    case None => Err(MemberNotFound)
    case Some(k) =>
      var m := members[k];
      var balance := if m.remainingTickets + amount > 0 then m.remainingTickets + amount else 0;
      var total := if amount > 0 then m.totalTickets + amount else m.totalTickets;
      var kind := if amount > 0 then Add else Use;
      var magnitude := if amount < 0 then -amount else amount;
      var updated := m.(
        remainingTickets := balance,
        totalTickets := total,
        ticketHistory := m.ticketHistory + [TicketHistory(entry.id, entry.time, kind, magnitude, balance, note)]);
      Ok(TicketUpdate(ReplaceById(members, updated), updated))
  }

  // ---------------------------------------------------------------------
  // The balance recorded in the history

  /** The newest history entry, if any, records the member's current balance. */
  predicate BalanceRecorded(m: Member)
  {
    m.ticketHistory != [] ==> m.ticketHistory[|m.ticketHistory| - 1].balance == m.remainingTickets
  }

  predicate BalancesRecorded(members: seq<Member>)
  {
    forall m :: m in members ==> BalanceRecorded(m)
  }
}
