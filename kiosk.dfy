/** The check-in kiosk (pages/Kiosk.tsx). Its React state becomes the
    fields of class Kiosk. Each event handler becomes a method:
    - a digit key;
    - CLR and DEL;
    - picking one of several matches;
    - the cancel button;
    - the mode switch;
    - the firing of the pending timer.

    The storage service is the `ledger` the kiosk holds. A `setTimeout`
    callback becomes the `pending` timer, and `Timeout` runs it. */
module KioskPage {

  import opened Wrappers
  import opened Types
  import Seqs
  import Storage
  import opened StorageService

  /** The keypad collects this many digits before it looks members up. */
  const EntryLength := 4

  const NoMatchMessage := "일치하는 회원이 없습니다."
  const WelcomeSuffix := "님 반가워요! 오늘도 오쓰!"
  const CheckInFailedMessage := "출결 처리 중 오류가 발생했습니다."

  datatype KioskStatus = Idle | Detecting | Success | Error | Selecting

  /** The `setTimeout` callback waiting to run, if any:
      - ClearEntry empties the keypad and returns to idle (Kiosk.tsx:131-134);
      - ShowIdle only returns to idle (Kiosk.tsx:95);
      - ResetAll runs `resetToIdle` (Kiosk.tsx:89-91). */
  datatype Timer = NoTimer | ClearEntry | ShowIdle | ResetAll

  /** The message shown for a failed check-in: the error's own message, or
      the generic one when that is empty (`err.message || ...`). */
  function FailureMessage(error: string): (msg: string)
    ensures error != "" ==> msg == error
    ensures msg != ""
  {
    if error == "" then CheckInFailedMessage else error
  }

  class Kiosk {
    const ledger: Ledger
    var isManualMode: bool
    var phoneNumber: string
    var status: KioskStatus
    var matchedMember: Option<Member>
    var multipleMatches: seq<Member>
    var message: string
    var pending: Timer

    /** The keypad never holds more digits than a lookup takes. */
    ghost predicate Valid()
      reads this
    {
      |phoneNumber| <= EntryLength
    }

    constructor (ledger: Ledger)
      ensures Valid()
      ensures this.ledger == ledger
      ensures !isManualMode && phoneNumber == "" && status == Idle
      ensures matchedMember == None && multipleMatches == [] && message == "" && pending == NoTimer
    {
      this.ledger := ledger;
      isManualMode := false;
      phoneNumber := "";
      status := Idle;
      matchedMember := None;
      multipleMatches := [];
      message := "";
      pending := NoTimer;
    }

    /** What `executeCheckIn(memberId)` leaves behind, measured against the
        state before it (Kiosk.tsx:82-97). When `addAttendance` succeeds,
        the stored lists are the ones it returns, and the kiosk greets the
        updated member and will reset everything. When it fails, the store is
        untouched, the error is shown, and the kiosk will only return to idle.
        The typed digits, the candidates and the mode stay as they were. */
    twostate predicate CheckedIn(memberId: string, entry: Storage.Stamp, rec: Storage.Stamp)
      reads this, ledger
    {
      var r := Storage.AddAttendance(old(ledger.members), old(ledger.attendance), memberId, entry, rec);
      && ledger.currentId == old(ledger.currentId)
      && multipleMatches == old(multipleMatches)
      && isManualMode == old(isManualMode)
      && (r.Ok? ==>
            && ledger.members == r.value.members
            && ledger.attendance == r.value.attendance
            && status == Success
            && matchedMember == Some(r.value.member)
            && message == r.value.member.name + WelcomeSuffix
            && pending == ResetAll)
      && (r.Err? ==>
            && ledger.members == old(ledger.members)
            && ledger.attendance == old(ledger.attendance)
            && status == Error
            && matchedMember == old(matchedMember)
            && message == FailureMessage(r.error)
            && pending == ShowIdle)
    }

    /** What `handleManualCheckIn(digits)` leaves behind (Kiosk.tsx:120-136).
        It looks up the active members whose phone ends with `digits`:
        - one match is checked in;
        - several matches are offered for selection;
        - no match shows an error, and the kiosk will clear the keypad.
        The typed digits and the mode are left to the caller. */
    twostate predicate LookedUp(digits: string, entry: Storage.Stamp, rec: Storage.Stamp)
      reads this, ledger
    {
      var matches := Storage.MembersByPhoneSuffix(old(ledger.members), digits);
      && isManualMode == old(isManualMode)
      && (|matches| == 1 ==> CheckedIn(matches[0].id, entry, rec))
      && (|matches| != 1 ==>
            && ledger.members == old(ledger.members)
            && ledger.attendance == old(ledger.attendance)
            && ledger.currentId == old(ledger.currentId)
            && matchedMember == old(matchedMember))
      && (|matches| > 1 ==>
            && status == Selecting
            && multipleMatches == matches
            && message == old(message)
            && pending == old(pending))
      && (|matches| == 0 ==>
            && status == Error
            && message == NoMatchMessage
            && pending == ClearEntry
            && multipleMatches == old(multipleMatches))
    }

    /** `executeCheckIn` */
    method ExecuteCheckIn(memberId: string, entry: Storage.Stamp, rec: Storage.Stamp)
      modifies this, ledger
      ensures CheckedIn(memberId, entry, rec)
      ensures phoneNumber == old(phoneNumber)
    {
      var r := ledger.AddAttendance(memberId, entry, rec);
      if r.Ok? {
        matchedMember := Some(r.value.member);
        status := Success;
        message := r.value.member.name + WelcomeSuffix;
        pending := ResetAll;
      } else {
        status := Error;
        message := FailureMessage(r.error);
        pending := ShowIdle;
      }
    }

    /** `handleManualCheckIn` */
    method HandleManualCheckIn(digits: string, entry: Storage.Stamp, rec: Storage.Stamp)
      modifies this, ledger
      ensures LookedUp(digits, entry, rec)
      ensures phoneNumber == old(phoneNumber)
    {
      var matches := ledger.GetMembersByPhoneSuffix(digits);
      if |matches| == 1 {
        ExecuteCheckIn(matches[0].id, entry, rec);
      } else if |matches| > 1 {
        multipleMatches := matches;
        status := Selecting;
      } else {
        status := Error;
        message := NoMatchMessage;
        pending := ClearEntry;
      }
    }

    /** `handleKeyPress`: a digit is taken only while fewer than four are
        typed, and the fourth one starts the lookup. */
    method PressKey(d: char, entry: Storage.Stamp, rec: Storage.Stamp)
      requires Valid()
      modifies this, ledger
      ensures Valid()
      ensures |old(phoneNumber)| >= EntryLength ==> unchanged(this) && unchanged(ledger)
      ensures |old(phoneNumber)| < EntryLength ==> phoneNumber == old(phoneNumber) + [d]
      ensures |old(phoneNumber)| < EntryLength - 1 ==>
        && unchanged(ledger)
        && status == old(status) && matchedMember == old(matchedMember)
        && multipleMatches == old(multipleMatches) && message == old(message)
        && pending == old(pending) && isManualMode == old(isManualMode)
      ensures |old(phoneNumber)| == EntryLength - 1 ==> LookedUp(phoneNumber, entry, rec)
    {
      if |phoneNumber| < EntryLength {
        var newNumber := phoneNumber + [d];
        phoneNumber := newNumber;
        if |newNumber| == EntryLength {
          HandleManualCheckIn(newNumber, entry, rec);
        }
      }
    }

    /** The CLR key (Kiosk.tsx:218). */
    method Clear()
      modifies this
      ensures Valid()
      ensures phoneNumber == ""
      ensures status == old(status) && matchedMember == old(matchedMember)
      ensures multipleMatches == old(multipleMatches) && message == old(message)
      ensures pending == old(pending) && isManualMode == old(isManualMode)
    {
      phoneNumber := "";
    }

    /** The DEL key (Kiosk.tsx:219): the last digit goes, if there is one. */
    method DeleteLast()
      requires Valid()
      modifies this
      ensures Valid()
      ensures old(phoneNumber) == "" ==> phoneNumber == ""
      ensures old(phoneNumber) != "" ==> phoneNumber + [old(phoneNumber)[|old(phoneNumber)| - 1]] == old(phoneNumber)
      ensures status == old(status) && matchedMember == old(matchedMember)
      ensures multipleMatches == old(multipleMatches) && message == old(message)
      ensures pending == old(pending) && isManualMode == old(isManualMode)
    {
      phoneNumber := Seqs.DropLast(phoneNumber);
    }

    /** Picking the `k`-th of several matching members (Kiosk.tsx:252-255). */
    method SelectCandidate(k: nat, entry: Storage.Stamp, rec: Storage.Stamp)
      requires k < |multipleMatches|
      modifies this, ledger
      ensures CheckedIn(old(multipleMatches)[k].id, entry, rec)
      ensures phoneNumber == old(phoneNumber)
    {
      ExecuteCheckIn(multipleMatches[k].id, entry, rec);
    }

    /** `resetToIdle` (Kiosk.tsx:99-107), also the cancel button of the
        selection screen. It does not cancel a pending timer. */
    method ResetToIdle()
      modifies this
      ensures Valid()
      ensures status == Idle && matchedMember == None && multipleMatches == []
      ensures message == "" && !isManualMode && phoneNumber == ""
      ensures pending == old(pending)
    {
      status := Idle;
      matchedMember := None;
      multipleMatches := [];
      message := "";
      isManualMode := false;
      phoneNumber := "";
    }

    /** The keypad button and the back button (Kiosk.tsx:232). */
    method SetManualMode(on: bool)
      modifies this
      ensures isManualMode == on
      ensures phoneNumber == old(phoneNumber) && status == old(status)
      ensures matchedMember == old(matchedMember) && multipleMatches == old(multipleMatches)
      ensures message == old(message) && pending == old(pending)
    {
      isManualMode := on;
    }

    /** The pending `setTimeout` callback fires; afterwards none is pending. */
    method Timeout()
      requires Valid()
      modifies this
      ensures Valid()
      ensures pending == NoTimer
      ensures old(pending) == NoTimer ==>
        && phoneNumber == old(phoneNumber) && status == old(status)
        && matchedMember == old(matchedMember) && multipleMatches == old(multipleMatches)
        && message == old(message) && isManualMode == old(isManualMode)
      ensures old(pending) == ClearEntry ==>
        && phoneNumber == "" && status == Idle
        && matchedMember == old(matchedMember) && multipleMatches == old(multipleMatches)
        && message == old(message) && isManualMode == old(isManualMode)
      ensures old(pending) == ShowIdle ==>
        && phoneNumber == old(phoneNumber) && status == Idle
        && matchedMember == old(matchedMember) && multipleMatches == old(multipleMatches)
        && message == old(message) && isManualMode == old(isManualMode)
      ensures old(pending) == ResetAll ==>
        && phoneNumber == "" && status == Idle && matchedMember == None
        && multipleMatches == [] && message == "" && !isManualMode
    {
      match pending {
        case NoTimer =>
        case ClearEntry =>
          phoneNumber := "";
          status := Idle;
        case ShowIdle =>
          status := Idle;
        case ResetAll =>
          ResetToIdle();
      }
      pending := NoTimer;
    }
  }
}
