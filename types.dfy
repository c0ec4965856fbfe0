/** The records of the gym registry: members, their ticket history and
    attendance records (types.ts). An optional field of the source whose
    absence the code treats as empty (`ticketHistory || []`, `note || ...`)
    is an always-present field holding the empty value. */
module Types {

  datatype Status = Active | Expired | Suspended

  datatype Belt = White | Grey | Yellow | Orange | Green | Blue | Purple | Brown | Black

  /** The source's literal type `0 | 1 | 2 | 3 | 4`. */
  type Stripes = s: int | 0 <= s <= 4

  datatype Promotion = Promotion(date: string, belt: Belt, stripes: int, note: string)

  datatype TicketKind = Add | Use | Refund

  /** One change of a member's ticket balance; `balance` is the balance after it. */
  datatype TicketHistory = TicketHistory(
    id: string,
    date: string,
    kind: TicketKind,
    amount: int,
    balance: int,
    note: string)

  datatype Member = Member(
    id: string,
    name: string,
    phone: string,
    joinDate: string,
    totalTickets: int,
    remainingTickets: int,
    status: Status,
    belt: Belt,
    stripes: Stripes,
    promotionHistory: seq<Promotion>,
    memo: string,
    faceImages: seq<string>,
    ticketHistory: seq<TicketHistory>)

  /** An attendance record; its `type` is always `'check-in'`, so it is not stored. */
  datatype AttendanceRecord = AttendanceRecord(
    id: string,
    memberId: string,
    memberName: string,
    timestamp: string)
}
