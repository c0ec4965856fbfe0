/** The member login screen (pages/MyProfile.tsx). The logged-in member,
    the typed phone suffix, the login error and the candidates shown when
    several members share a suffix become the fields of class MyProfile.
    The storage service is the `ledger` it holds; the current member id lives
    there. */
module MyProfilePage {

  import opened Wrappers
  import opened Types
  import Seqs
  import Storage
  import opened StorageService
  import StorageLemmas

  /** The keypad collects this many digits before it tries to log in. */
  const SuffixLength := 4

  const NoAccountMessage := "일치하는 회원 정보가 없습니다."

  /** The two keypad keys that are not digits. */
  datatype KeypadAction = Clr | Del

  class MyProfile {
    const ledger: Ledger
    var currentMember: Option<Member>
    var phoneSuffix: string
    var loginError: string
    var multipleMatches: seq<Member>

    /** The keypad never holds more digits than a login takes. */
    ghost predicate Valid()
      reads this
    {
      |phoneSuffix| <= SuffixLength
    }

    /** The screen opens on whoever the store names as current member
        (MyProfile.tsx:10-13). */
    constructor (ledger: Ledger)
      ensures Valid()
      ensures this.ledger == ledger
      ensures currentMember == Storage.CurrentMember(ledger.members, ledger.currentId)
      ensures phoneSuffix == "" && loginError == "" && multipleMatches == []
    {
      this.ledger := ledger;
      var m := ledger.GetCurrentMember();
      currentMember := m;
      phoneSuffix := "";
      loginError := "";
      multipleMatches := [];
    }

    /** What `completeLogin(m)` leaves behind (MyProfile.tsx:51-56): `m`'s
        id is the stored current id, `m` is shown, and the error and the
        candidates are cleared. The stored lists are untouched. */
    twostate predicate LoggedIn(m: Member)
      reads this, ledger
    {
      && ledger.currentId == Some(m.id)
      && ledger.members == old(ledger.members)
      && ledger.attendance == old(ledger.attendance)
      && currentMember == Some(m)
      && loginError == ""
      && multipleMatches == []
    }

    /** What `attemptLogin(suffix)` leaves behind (MyProfile.tsx:38-49). It
        looks up the active members whose phone ends with `suffix`:
        - one match logs that member in;
        - several matches are offered as candidates, with no error;
        - no match shows the error and empties the keypad.
        Only a single match touches the store. */
    twostate predicate LoginAttempted(suffix: string)
      reads this, ledger
    {
      var matches := Storage.MembersByPhoneSuffix(old(ledger.members), suffix);
      && phoneSuffix == (if |matches| == 0 then "" else suffix)
      && (|matches| == 1 ==> LoggedIn(matches[0]))
      && (|matches| != 1 ==>
            && ledger.members == old(ledger.members)
            && ledger.attendance == old(ledger.attendance)
            && ledger.currentId == old(ledger.currentId)
            && currentMember == old(currentMember))
      && (|matches| > 1 ==> multipleMatches == matches && loginError == "")
      && (|matches| == 0 ==> multipleMatches == old(multipleMatches) && loginError == NoAccountMessage)
    }

    /** `completeLogin`. When `m` is a stored member with a non-empty id that
        no other stored member shares, reading the current member back from
        the store gives `m`. */
    method CompleteLogin(m: Member)
      modifies this, ledger
      ensures LoggedIn(m)
      ensures phoneSuffix == old(phoneSuffix)
      ensures m in ledger.members && StorageLemmas.UniqueIds(ledger.members) && m.id != "" ==>
        Storage.CurrentMember(ledger.members, ledger.currentId) == Some(m)
    {
      ledger.SetCurrentMember(m.id);
      currentMember := Some(m);
      loginError := "";
      multipleMatches := [];
      if m in ledger.members && StorageLemmas.UniqueIds(ledger.members) && m.id != "" {
        StorageLemmas.CurrentMemberAfterSet(ledger.members, m);
      }
    }

    /** `attemptLogin`, called with the suffix just typed. */
    method AttemptLogin(suffix: string)
      requires suffix == phoneSuffix
      modifies this, ledger
      ensures LoginAttempted(suffix)
    {
      var matches := ledger.GetMembersByPhoneSuffix(suffix);
      if |matches| == 1 {
        CompleteLogin(matches[0]);
      } else if |matches| > 1 {
        multipleMatches := matches;
        loginError := "";
      } else {
        loginError := NoAccountMessage;
        phoneSuffix := "";
      }
    }

    /** `handleKeyPress`: a digit is taken only while fewer than four are
        typed, and the fourth one starts the login attempt. */
    method PressKey(d: char)
      requires Valid()
      modifies this, ledger
      ensures Valid()
      ensures |old(phoneSuffix)| >= SuffixLength ==> unchanged(this) && unchanged(ledger)
      ensures |old(phoneSuffix)| < SuffixLength - 1 ==>
        && phoneSuffix == old(phoneSuffix) + [d]
        && unchanged(ledger)
        && currentMember == old(currentMember) && loginError == old(loginError)
        && multipleMatches == old(multipleMatches)
      ensures |old(phoneSuffix)| == SuffixLength - 1 ==> LoginAttempted(old(phoneSuffix) + [d])
    {
      if |phoneSuffix| < SuffixLength {
        var nextSuffix := phoneSuffix + [d];
        phoneSuffix := nextSuffix;
        if |nextSuffix| == SuffixLength {
          AttemptLogin(nextSuffix);
        }
      }
    }

    /** `handleAction`: CLR empties the keypad, DEL drops its last digit;
        both dismiss the candidates and the error. */
    method HandleAction(a: KeypadAction)
      requires Valid()
      modifies this
      ensures Valid()
      ensures a == Clr ==> phoneSuffix == ""
      ensures a == Del && old(phoneSuffix) == "" ==> phoneSuffix == ""
      ensures a == Del && old(phoneSuffix) != "" ==>
        phoneSuffix + [old(phoneSuffix)[|old(phoneSuffix)| - 1]] == old(phoneSuffix)
      ensures multipleMatches == [] && loginError == ""
      ensures currentMember == old(currentMember)
    {
      match a {
        case Clr =>
          phoneSuffix := "";
          multipleMatches := [];
        case Del =>
          phoneSuffix := Seqs.DropLast(phoneSuffix);
          multipleMatches := [];
      }
      loginError := "";
    }

    /** `handleLogout`: the store forgets the current member, so reading it
        back gives none, and the keypad is emptied. */
    method HandleLogout()
      modifies this, ledger
      ensures ledger.currentId == None
      ensures Storage.CurrentMember(ledger.members, ledger.currentId) == None
      ensures ledger.members == old(ledger.members) && ledger.attendance == old(ledger.attendance)
      ensures currentMember == None && phoneSuffix == ""
      ensures loginError == old(loginError) && multipleMatches == old(multipleMatches)
    {
      ledger.LogoutMember();
      currentMember := None;
      phoneSuffix := "";
    }
  }
}
