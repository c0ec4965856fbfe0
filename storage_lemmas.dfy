/** Properties of the storage service's ledger: how the suffix lookup orders
    and rejects, how check-in and refund undo each other, and the invariant
    that the newest history entry records the balance. */
module StorageLemmas {

  import opened Wrappers
  import opened Seqs
  import opened Types
  import opened Storage

  // ---------------------------------------------------------------------
  // Phone-suffix lookup

  /** The lookup keeps storage order: it distributes over concatenation. */
  lemma SuffixLookupInStorageOrder(front: seq<Member>, back: seq<Member>, suffix: string)
    ensures MembersByPhoneSuffix(front + back, suffix)
         == MembersByPhoneSuffix(front, suffix) + MembersByPhoneSuffix(back, suffix)
  {
    FilterConcat(front, back, IsActive);
    FilterConcat(Filter(front, IsActive), Filter(back, IsActive), PhoneEndsWith(suffix));
  }

  lemma SuffixOfDigitsIsDigits(d: string, suffix: string)
    requires forall i :: 0 <= i < |d| ==> IsDigit(d[i])
    requires EndsWith(d, suffix)
    ensures forall i :: 0 <= i < |suffix| ==> IsDigit(suffix[i])
  {
    forall i | 0 <= i < |suffix| ensures IsDigit(suffix[i]) {
      assert suffix[i] == d[|d| - |suffix| + i];
    }
  }

  /** Only the phone is stripped of non-digits, not the query: a query that
      holds any non-digit character matches no member at all. */
  lemma NonDigitSuffixMatchesNothing(members: seq<Member>, suffix: string)
    requires exists i :: 0 <= i < |suffix| && !IsDigit(suffix[i])
    ensures MembersByPhoneSuffix(members, suffix) == []
  {
    var r := MembersByPhoneSuffix(members, suffix);
    if r != [] {
      assert r[0] in r;
      SuffixOfDigitsIsDigits(DigitsOnly(r[0].phone), suffix);
    }
  }

  /** The empty query is a suffix of every phone: it finds every active member. */
  lemma EmptySuffixFindsAllActive(members: seq<Member>)
    ensures MembersByPhoneSuffix(members, "") == Filter(members, IsActive)
  {
    var active := Filter(members, IsActive);
    forall i | 0 <= i < |active| ensures PhoneEndsWith("")(active[i]) {
      var d := DigitsOnly(active[i].phone);
      assert d[|d|..] == "";
    }
    FilterKeepsAll(active, PhoneEndsWith(""));
  }

  predicate AllDigits(s: string)
  {
    forall i :: 0 <= i < |s| ==> IsDigit(s[i])
  }

  /** Stripping drops a non-digit separator and joins the two sides. */
  lemma DigitsOnlyDropsSeparator(a: string, c: char, b: string)
    requires !IsDigit(c)
    ensures DigitsOnly(a + [c] + b) == DigitsOnly(a) + DigitsOnly(b)
  {
    assert Filter([c], IsDigit) == [] by {
      assert [c][1..] == [];
    }
    FilterConcat(a + [c], b, IsDigit);
    FilterConcat(a, [c], IsDigit);
  }

  /** Stripping a dash-separated phone joins its digit groups. */
  lemma DigitsOnlyOfDashedPhone(x: string, y: string, z: string)
    requires AllDigits(x) && AllDigits(y) && AllDigits(z)
    ensures DigitsOnly(x + "-" + y + "-" + z) == x + y + z
  {
    assert x + "-" + y + "-" + z == (x + ['-'] + y) + ['-'] + z;
    DigitsOnlyDropsSeparator(x + ['-'] + y, '-', z);
    DigitsOnlyDropsSeparator(x, '-', y);
    FilterKeepsAll(x, IsDigit);
    FilterKeepsAll(y, IsDigit);
    FilterKeepsAll(z, IsDigit);
  }

  lemma EndsWithOwnTail(u: string, v: string)
    ensures EndsWith(u + v, v)
  {
    assert (u + v)[|u|..] == v;
  }

  lemma FirstSamplePhone()
    ensures DigitsOnly("010-1234-5678") == "010" + "1234" + "5678"
  {
    assert "010-1234-5678" == "010" + "-" + "1234" + "-" + "5678";
    assert AllDigits("010") && AllDigits("1234") && AllDigits("5678");
    DigitsOnlyOfDashedPhone("010", "1234", "5678");
  }

  lemma SecondSamplePhone()
    ensures DigitsOnly("010-9999-5678") == "010" + "9999" + "5678"
  {
    assert "010-9999-5678" == "010" + "-" + "9999" + "-" + "5678";
    assert AllDigits("010") && AllDigits("9999") && AllDigits("5678");
    DigitsOnlyOfDashedPhone("010", "9999", "5678");
  }

  /** A stripped phone ending in 5678 does not end in 4567. */
  lemma NotBoth(u: string)
    ensures !EndsWith(u + "5678", "4567")
  {
    var s := u + "5678";
    assert s[|s| - 4] == '5';
  }

  /** The two sample phones, stripped: both end in 5678, neither in 4567. */
  lemma SamplePhones()
    ensures EndsWith(DigitsOnly("010-1234-5678"), "5678")
    ensures EndsWith(DigitsOnly("010-9999-5678"), "5678")
    ensures !EndsWith(DigitsOnly("010-1234-5678"), "4567")
    ensures !EndsWith(DigitsOnly("010-9999-5678"), "4567")
  {
    FirstSamplePhone();
    SecondSamplePhone();
    EndsWithOwnTail("010" + "1234", "5678");
    EndsWithOwnTail("010" + "9999", "5678");
    NotBoth("010" + "1234");
    NotBoth("010" + "9999");
  }

  /** With the third member suspended, the lookup only ever tests the first two. */
  lemma LookupSkipsSuspended(a: Member, b: Member, c: Member, suffix: string)
    requires a.status == Active && b.status == Active && c.status == Suspended
    ensures MembersByPhoneSuffix([a, b, c], suffix) == Filter([a, b], PhoneEndsWith(suffix))
  {
    assert [a, b, c] == [a, b] + [c];
    FilterConcat([a, b], [c], IsActive);
    FilterKeepsAll([a, b], IsActive);
    FilterKeepsNone([c], IsActive);
  }

  lemma BothFound(a: Member, b: Member, suffix: string)
    requires EndsWith(DigitsOnly(a.phone), suffix) && EndsWith(DigitsOnly(b.phone), suffix)
    ensures Filter([a, b], PhoneEndsWith(suffix)) == [a, b]
  {
    FilterKeepsAll([a, b], PhoneEndsWith(suffix));
  }

  lemma NeitherFound(a: Member, b: Member, suffix: string)
    requires !EndsWith(DigitsOnly(a.phone), suffix) && !EndsWith(DigitsOnly(b.phone), suffix)
    ensures Filter([a, b], PhoneEndsWith(suffix)) == []
  {
    FilterKeepsNone([a, b], PhoneEndsWith(suffix));
  }

  /** Two active members whose phones share the last four digits: both are
      found by those digits, in storage order; a suspended member with the
      same phone is not. */
  lemma SharedSuffixFindsBoth(a: Member, b: Member, c: Member)
    requires a.phone == "010-1234-5678" && a.status == Active
    requires b.phone == "010-9999-5678" && b.status == Active
    requires c.phone == "010-9999-5678" && c.status == Suspended
    ensures MembersByPhoneSuffix([a, b, c], "5678") == [a, b]
  {
    SamplePhones();
    LookupSkipsSuspended(a, b, c, "5678");
    BothFound(a, b, "5678");
  }

  /** The same members: a suffix neither phone ends with finds no one. */
  lemma WrongSuffixFindsNone(a: Member, b: Member, c: Member)
    requires a.phone == "010-1234-5678" && a.status == Active
    requires b.phone == "010-9999-5678" && b.status == Active
    requires c.status == Suspended
    ensures MembersByPhoneSuffix([a, b, c], "4567") == []
  {
    SamplePhones();
    LookupSkipsSuspended(a, b, c, "4567");
    NeitherFound(a, b, "4567");
  }

  /** A query typed with a dash is not stripped, so it finds no one. */
  lemma DashedQueryFindsNone(members: seq<Member>)
    ensures MembersByPhoneSuffix(members, "4-5678") == []
  {
    assert !IsDigit("4-5678"[1]);
    NonDigitSuffixMatchesNothing(members, "4-5678");
  }

  // ---------------------------------------------------------------------
  // clearDummyMembers

  /** Clearing test members keeps the list's order: clearing a list in two
      pieces gives the two pieces' results one after the other. */
  lemma ClearDummyKeepsOrder(front: seq<Member>, back: seq<Member>)
    ensures ClearDummyMembers(front + back) == ClearDummyMembers(front) + ClearDummyMembers(back)
  {
    FilterConcat(front, back, IsNotDummy);
  }

  // ---------------------------------------------------------------------
  // Finding by id

  /** Two member lists with the same ids position by position find the same index. */
  lemma FindMemberSameIds(a: seq<Member>, b: seq<Member>, id: string)
    requires |a| == |b|
    requires forall j :: 0 <= j < |a| ==> a[j].id == b[j].id
    ensures FindMember(a, id) == FindMember(b, id)
  {
  }

  /** Replacing by id keeps every index where the ids are found. */
  lemma FindMemberAfterReplace(members: seq<Member>, u: Member, id: string)
    ensures FindMember(ReplaceById(members, u), id) == FindMember(members, id)
  {
    FindMemberSameIds(ReplaceById(members, u), members, id);
  }

  predicate UniqueIds(members: seq<Member>)
  {
    forall i, j :: 0 <= i < j < |members| ==> members[i].id != members[j].id
  }

  /** After `setCurrentMember(m.id)`, `getCurrentMember` returns `m`, provided
      ids are unique and `m.id` is not the empty (falsy) string. */
  lemma CurrentMemberAfterSet(members: seq<Member>, m: Member)
    requires m in members
    requires UniqueIds(members)
    requires m.id != ""
    ensures CurrentMember(members, Some(m.id)) == Some(m)
  {
    var i :| 0 <= i < |members| && members[i] == m;
  }

  // ---------------------------------------------------------------------
  // Check-in and refund

  /** Checking a member in and then deleting the new record with a refund
      restores that member's balance and the attendance list; the history is
      two entries longer, and members with other ids are untouched. */
  lemma CheckInThenRefundRestores(
    members: seq<Member>, attendance: seq<AttendanceRecord>, memberId: string,
    use: Stamp, rec: Stamp, refund: Stamp, refundNote: string)
    requires forall a :: a in attendance ==> a.id != rec.id
    requires AddAttendance(members, attendance, memberId, use, rec).Ok?
    ensures
      var c := AddAttendance(members, attendance, memberId, use, rec).value;
      var d := DeleteAttendance(c.members, c.attendance, rec.id, true, refund, refundNote);
      var k := FindMember(members, memberId).value;
      && d.Ok?
      && d.value.deleted == c.record
      && d.value.attendance == attendance
      && |d.value.members| == |members|
      && d.value.members[k].remainingTickets == members[k].remainingTickets
      && d.value.members[k].ticketHistory == members[k].ticketHistory + [
           TicketHistory(use.id, use.time, Use, 1, members[k].remainingTickets - 1, CheckInNote),
           TicketHistory(refund.id, refund.time, Refund, 1, members[k].remainingTickets, refundNote)]
      && d.value.members[k] == members[k].(ticketHistory := d.value.members[k].ticketHistory)
      && (forall j :: 0 <= j < |members| && members[j].id != memberId ==> d.value.members[j] == members[j])
  {
    var c := AddAttendance(members, attendance, memberId, use, rec).value;
    var k := FindMember(members, memberId).value;
    FreshRecordDeletion(attendance, c.record);
    FindMemberAfterReplace(members, c.member, memberId);
    assert FindMember(c.members, c.record.memberId) == Some(k);
  }

  /** Deleting a record just put in front of a list that does not hold its
      id finds it first and gives the list back. */
  lemma FreshRecordDeletion(attendance: seq<AttendanceRecord>, record: AttendanceRecord)
    requires forall a :: a in attendance ==> a.id != record.id
    ensures FindRecord([record] + attendance, record.id) == Some(0)
    ensures Filter([record] + attendance, RecordIdIsNot(record.id)) == attendance
  {
    assert ([record] + attendance)[0] == record;
    FilterConcat([record], attendance, RecordIdIsNot(record.id));
    FilterKeepsAll(attendance, RecordIdIsNot(record.id));
    assert [record][1..] == [];
  }

  function RecordOf(memberId: string): AttendanceRecord -> bool
  {
    (a: AttendanceRecord) => a.memberId == memberId
  }

  /** The number of attendance records of a member id. */
  function Visits(attendance: seq<AttendanceRecord>, memberId: string): nat
  {
    |Filter(attendance, RecordOf(memberId))|
  }

  /** A check-in turns exactly one ticket into exactly one visit. */
  lemma CheckInConservesTicketsPlusVisits(
    members: seq<Member>, attendance: seq<AttendanceRecord>, memberId: string, use: Stamp, rec: Stamp)
    requires AddAttendance(members, attendance, memberId, use, rec).Ok?
    ensures
      var c := AddAttendance(members, attendance, memberId, use, rec).value;
      var k := FindMember(members, memberId).value;
      && c.member.remainingTickets + Visits(c.attendance, memberId)
         == members[k].remainingTickets + Visits(attendance, memberId)
      && Visits(c.attendance, memberId) == Visits(attendance, memberId) + 1
  {
    var c := AddAttendance(members, attendance, memberId, use, rec).value;
    FilterConcat([c.record], attendance, RecordOf(memberId));
  }

  // ---------------------------------------------------------------------
  // The default top-up note's number

  /** The number a string of decimal digits denotes. */
  function DecimalValue(s: string): int
  {
    if s == [] then 0 else DecimalValue(s[..|s| - 1]) * 10 + (s[|s| - 1] as int - '0' as int)
  }

  /** Reading back the numeral printed for `n` gives `n`. */
  lemma {:induction false} NatToDecimalRoundTrip(n: nat)
    ensures DecimalValue(NatToDecimal(n)) == n
    decreases n
  {
    if n >= 10 {
      var r := NatToDecimal(n);
      assert r[..|r| - 1] == NatToDecimal(n / 10);
      NatToDecimalRoundTrip(n / 10);
    }
  }

  /** The default top-up note for a non-negative amount names that amount:
      the text between its prefix and suffix reads back as the amount. */
  lemma TopUpNoteNamesAmount(amount: nat)
    ensures var r := TopUpNote(amount);
      DecimalValue(r[|TopUpNotePrefix|..|r| - |TopUpNoteSuffix|]) == amount
  {
    NatToDecimalRoundTrip(amount);
  }

  // ---------------------------------------------------------------------
  // Top-up and manual adjustment

  /** Topping up `amount` tickets and then adjusting by `-amount` gives the
      balance back (for a non-negative balance), while the total keeps the
      top-up: the adjustment only grows the total for positive amounts. */
  lemma TopUpThenWithdrawRestoresBalance(
    members: seq<Member>, memberId: string, amount: int, note: string, e1: Stamp, e2: Stamp)
    requires amount >= 0
    requires FindMember(members, memberId).Some?
    requires members[FindMember(members, memberId).value].remainingTickets >= 0
    ensures
      var k := FindMember(members, memberId).value;
      var t := AddTickets(members, memberId, amount, note, e1).value;
      var w := ManualAdjustTickets(t.members, memberId, -amount, note, e2);
      && w.Ok?
      && w.value.member.remainingTickets == members[k].remainingTickets
      && w.value.member.totalTickets == members[k].totalTickets + amount
      && w.value.members[k] == w.value.member
  {
    var k := FindMember(members, memberId).value;
    var t := AddTickets(members, memberId, amount, note, e1).value;
    FindMemberAfterReplace(members, t.member, memberId);
  }

  /** For a positive amount that the caller describes, a manual adjustment is
      exactly a top-up. */
  lemma PositiveAdjustmentIsTopUp(members: seq<Member>, memberId: string, amount: int, note: string, e: Stamp)
    requires amount > 0 && note != ""
    requires FindMember(members, memberId).Some? ==>
      members[FindMember(members, memberId).value].remainingTickets + amount > 0
    ensures ManualAdjustTickets(members, memberId, amount, note, e) == AddTickets(members, memberId, amount, note, e)
  {
  }

  // ---------------------------------------------------------------------
  // The newest history entry records the balance

  lemma ReplaceKeepsBalancesRecorded(members: seq<Member>, u: Member)
    requires BalancesRecorded(members) && BalanceRecorded(u)
    ensures BalancesRecorded(ReplaceById(members, u))
  {
    var r := ReplaceById(members, u);
    forall m | m in r ensures BalanceRecorded(m) {
      var j :| 0 <= j < |r| && r[j] == m;
      assert m == u || m == members[j];
    }
  }

  lemma NewMemberRecordsBalance(draft: MemberDraft, id: string, today: string, now: string)
    ensures BalanceRecorded(NewMember(draft, id, today, now))
  {
  }

  lemma CheckInKeepsBalancesRecorded(
    members: seq<Member>, attendance: seq<AttendanceRecord>, memberId: string, use: Stamp, rec: Stamp)
    requires BalancesRecorded(members)
    ensures var r := AddAttendance(members, attendance, memberId, use, rec);
      r.Ok? ==> BalancesRecorded(r.value.members) && BalanceRecorded(r.value.member)
  {
    var r := AddAttendance(members, attendance, memberId, use, rec);
    if r.Ok? {
      ReplaceKeepsBalancesRecorded(members, r.value.member);
    }
  }

  lemma DeleteAttendanceKeepsBalancesRecorded(
    members: seq<Member>, attendance: seq<AttendanceRecord>, attendanceId: string,
    refundTicket: bool, entry: Stamp, refundNote: string)
    requires BalancesRecorded(members)
    ensures var r := DeleteAttendance(members, attendance, attendanceId, refundTicket, entry, refundNote);
      r.Ok? ==> BalancesRecorded(r.value.members)
  {
    var r := DeleteAttendance(members, attendance, attendanceId, refundTicket, entry, refundNote);
    if r.Ok? && refundTicket && FindMember(members, r.value.deleted.memberId).Some? {
      var m := members[FindMember(members, r.value.deleted.memberId).value];
      ReplaceKeepsBalancesRecorded(members, m.(
        remainingTickets := m.remainingTickets + 1,
        ticketHistory := m.ticketHistory + [TicketHistory(entry.id, entry.time, Refund, 1, m.remainingTickets + 1, refundNote)]));
    }
  }

  lemma AddTicketsKeepsBalancesRecorded(members: seq<Member>, memberId: string, amount: int, note: string, entry: Stamp)
    requires BalancesRecorded(members)
    ensures var r := AddTickets(members, memberId, amount, note, entry);
      r.Ok? ==> BalancesRecorded(r.value.members)
  {
    var r := AddTickets(members, memberId, amount, note, entry);
    if r.Ok? {
      ReplaceKeepsBalancesRecorded(members, r.value.member);
    }
  }

  lemma ManualAdjustKeepsBalancesRecorded(members: seq<Member>, memberId: string, amount: int, note: string, entry: Stamp)
    requires BalancesRecorded(members)
    ensures var r := ManualAdjustTickets(members, memberId, amount, note, entry);
      r.Ok? ==> BalancesRecorded(r.value.members)
  {
    var r := ManualAdjustTickets(members, memberId, amount, note, entry);
    if r.Ok? {
      ReplaceKeepsBalancesRecorded(members, r.value.member);
    }
  }

  lemma DeletionsKeepBalancesRecorded(members: seq<Member>, attendance: seq<AttendanceRecord>, memberId: string)
    requires BalancesRecorded(members)
    ensures BalancesRecorded(ClearDummyMembers(members))
    ensures var r := DeleteMember(members, attendance, memberId);
      r.Ok? ==> BalancesRecorded(r.value.members)
  {
  }
}
