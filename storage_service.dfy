/** The storage service object (services/storage.ts:31-311). The three
    localStorage keys become three fields: the member list, the attendance
    list and the current member id. Each method reads the fields, computes
    the new lists with the functions of module Storage, and writes them back;
    a method whose source throws leaves every field as it was. */
module StorageService {

  import opened Wrappers
  import opened Types
  import Storage

  class Ledger {
    var members: seq<Member>
    var attendance: seq<AttendanceRecord>
    var currentId: Option<string>

    constructor (members: seq<Member>, attendance: seq<AttendanceRecord>)
      ensures this.members == members && this.attendance == attendance && currentId == None
    {
      this.members := members;
      this.attendance := attendance;
      currentId := None;
    }

    /** `getMembers` */
    method GetMembers() returns (ms: seq<Member>)
      ensures ms == members
    {
      ms := members;
    }

    /** `getMembersByPhoneSuffix` */
    method GetMembersByPhoneSuffix(suffix: string) returns (ms: seq<Member>)
      ensures ms == Storage.MembersByPhoneSuffix(members, suffix)
    {
      ms := Storage.MembersByPhoneSuffix(members, suffix);
    }

    /** `saveMembers` */
    method SaveMembers(ms: seq<Member>)
      modifies this
      ensures members == ms
      ensures attendance == old(attendance) && currentId == old(currentId)
    {
      members := ms;
    }

    /** `addMember`: the new record is appended and returned. */
    method AddMember(draft: Storage.MemberDraft, id: string, today: string, now: string) returns (m: Member)
      modifies this
      ensures m == Storage.NewMember(draft, id, today, now)
      ensures members == old(members) + [m]
      ensures attendance == old(attendance) && currentId == old(currentId)
    {
      m := Storage.NewMember(draft, id, today, now);
      members := members + [m];
    }

    /** `updateMember` */
    method UpdateMember(u: Member)
      modifies this
      ensures members == Storage.ReplaceById(old(members), u)
      ensures attendance == old(attendance) && currentId == old(currentId)
    {
      members := Storage.ReplaceById(members, u);
    }

    /** `getAttendance` */
    method GetAttendance() returns (records: seq<AttendanceRecord>)
      ensures records == attendance
    {
      records := attendance;
    }

    /** `addAttendance`: `entry` stamps the history entry, `rec` the record. */
    method AddAttendance(memberId: string, entry: Storage.Stamp, rec: Storage.Stamp) returns (r: Result<Storage.CheckIn>)
      modifies this
      ensures r == Storage.AddAttendance(old(members), old(attendance), memberId, entry, rec)
      ensures r.Ok? ==> members == r.value.members && attendance == r.value.attendance
      ensures r.Err? ==> members == old(members) && attendance == old(attendance)
      ensures currentId == old(currentId)
    {
      r := Storage.AddAttendance(members, attendance, memberId, entry, rec);
      if r.Ok? {
        members := r.value.members;
        attendance := r.value.attendance;
      }
    }

    /** `logoutMember` */
    method LogoutMember()
      modifies this
      ensures currentId == None
      ensures members == old(members) && attendance == old(attendance)
    {
      currentId := None;
    }

    /** `setCurrentMember` */
    method SetCurrentMember(id: string)
      modifies this
      ensures currentId == Some(id)
      ensures members == old(members) && attendance == old(attendance)
    {
      currentId := Some(id);
    }

    /** `getCurrentMember` */
    method GetCurrentMember() returns (m: Option<Member>)
      ensures m == Storage.CurrentMember(members, currentId)
    {
      m := Storage.CurrentMember(members, currentId);
    }

    /** `deleteAttendance` */
    method DeleteAttendance(attendanceId: string, refundTicket: bool, entry: Storage.Stamp, refundNote: string)
      returns (r: Result<Storage.AttendanceDeletion>)
      modifies this
      ensures r == Storage.DeleteAttendance(old(members), old(attendance), attendanceId, refundTicket, entry, refundNote)
      ensures r.Ok? ==> members == r.value.members && attendance == r.value.attendance
      ensures r.Err? ==> members == old(members) && attendance == old(attendance)
      ensures currentId == old(currentId)
    {
      r := Storage.DeleteAttendance(members, attendance, attendanceId, refundTicket, entry, refundNote);
      if r.Ok? {
        members := r.value.members;
        attendance := r.value.attendance;
      }
    }

    /** `clearDummyMembers` */
    method ClearDummyMembers()
      modifies this
      ensures members == Storage.ClearDummyMembers(old(members))
      ensures attendance == old(attendance) && currentId == old(currentId)
    {
      members := Storage.ClearDummyMembers(members);
    }

    /** `deleteMember` */
    method DeleteMember(memberId: string) returns (r: Result<Storage.MemberDeletion>)
      modifies this
      ensures r == Storage.DeleteMember(old(members), old(attendance), memberId)
      ensures r.Ok? ==> members == r.value.members && attendance == r.value.attendance
      ensures r.Err? ==> members == old(members) && attendance == old(attendance)
      ensures currentId == old(currentId)
    {
      r := Storage.DeleteMember(members, attendance, memberId);
      if r.Ok? {
        members := r.value.members;
        attendance := r.value.attendance;
      }
    }

    /** `addTickets` */
    method AddTickets(memberId: string, amount: int, note: string, entry: Storage.Stamp) returns (r: Result<Storage.TicketUpdate>)
      modifies this
      ensures r == Storage.AddTickets(old(members), memberId, amount, note, entry)
      ensures r.Ok? ==> members == r.value.members
      ensures r.Err? ==> members == old(members)
      ensures attendance == old(attendance) && currentId == old(currentId)
    {
      r := Storage.AddTickets(members, memberId, amount, note, entry);
      if r.Ok? {
        members := r.value.members;
      }
    }

    /** `manualAdjustTickets` */
    method ManualAdjustTickets(memberId: string, amount: int, note: string, entry: Storage.Stamp) returns (r: Result<Storage.TicketUpdate>)
      modifies this
      ensures r == Storage.ManualAdjustTickets(old(members), memberId, amount, note, entry)
      ensures r.Ok? ==> members == r.value.members
      ensures r.Err? ==> members == old(members)
      ensures attendance == old(attendance) && currentId == old(currentId)
    {
      r := Storage.ManualAdjustTickets(members, memberId, amount, note, entry);
      if r.Ok? {
        members := r.value.members;
      }
    }
  }
}
