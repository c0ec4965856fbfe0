/** The administrator's member list (pages/MemberList.tsx). Its state (the
    members it shows, the search term, the add-member form and the face
    photo being taken) becomes the fields of class MemberList. Its handlers
    become methods. The storage service is the `ledger` it holds. The
    search and the status toggle are pure and are functions of the module. */
module MemberListPage {

  import opened Wrappers
  import opened Types
  import opened Seqs
  import Storage
  import opened StorageService
  import StorageLemmas

  /** The ticket count the add-member form starts with. */
  const DefaultTickets := 10

  // ---------------------------------------------------------------------
  // filteredMembers (MemberList.tsx:21-23)

  function MatchesSearch(term: string): Member -> bool
  {
    (m: Member) => Contains(m.name, term) || Contains(m.phone, term)
  }

  /** The members whose name or phone contains `term`, in list order. */
  function Search(members: seq<Member>, term: string): (r: seq<Member>)
    ensures forall m :: m in r <==> m in members && (Contains(m.name, term) || Contains(m.phone, term))
    ensures |r| <= |members|
  {
    Filter(members, MatchesSearch(term))
  }

  /** An empty search box shows every member. */
  lemma EmptySearchKeepsAll(members: seq<Member>)
    ensures Search(members, "") == members
  {
    forall i | 0 <= i < |members|
      ensures MatchesSearch("")(members[i])
    {
      ContainsEmpty(members[i].name);
    }
    FilterKeepsAll(members, MatchesSearch(""));
  }

  /** The search keeps the list's order: searching a list in two pieces gives
      the two pieces' results one after the other. */
  lemma SearchKeepsOrder(front: seq<Member>, back: seq<Member>, term: string)
    ensures Search(front + back, term) == Search(front, term) + Search(back, term)
  {
    FilterConcat(front, back, MatchesSearch(term));
  }

  // ---------------------------------------------------------------------
  // handleToggleStatus (MemberList.tsx:94-105)

  /** An active member becomes suspended; any other becomes active. */
  function Toggled(s: Status): (t: Status)
    ensures t == Suspended <==> s == Active
    ensures t == Active || t == Suspended
  {
    if s == Active then Suspended else Active
  }

  /** Toggling twice gives back an active or a suspended status. */
  lemma ToggleTwice(s: Status)
    requires s == Active || s == Suspended
    ensures Toggled(Toggled(s)) == s
  {
  }

  /** An expired member does not come back: toggled twice, it is suspended. */
  lemma ExpiredToggledTwiceIsSuspended()
    ensures Toggled(Toggled(Expired)) == Suspended
  {
  }

  function WithToggledStatus(m: Member): (u: Member)
    ensures u.status == Toggled(m.status)
    ensures u.(status := m.status) == m
  {
    m.(status := Toggled(m.status))
  }

  /** The list the page shows after a toggle: every member carrying `id` has
      its status toggled; length, order and the other members are kept. */
  function ToggleById(members: seq<Member>, id: string): (r: seq<Member>)
    ensures |r| == |members|
    ensures forall j :: 0 <= j < |r| && members[j].id != id ==> r[j] == members[j]
    ensures forall j :: 0 <= j < |r| && members[j].id == id ==> r[j] == WithToggledStatus(members[j])
  {
    seq(|members|, j requires 0 <= j < |members| =>
      if members[j].id == id then WithToggledStatus(members[j]) else members[j])
  }

  /** Toggling the same id twice restores the list when every member with
      that id is active or suspended. */
  lemma ToggleByIdTwice(members: seq<Member>, id: string)
    requires forall j :: 0 <= j < |members| && members[j].id == id ==>
      members[j].status == Active || members[j].status == Suspended
    ensures ToggleById(ToggleById(members, id), id) == members
  {
    var once := ToggleById(members, id);
    var twice := ToggleById(once, id);
    forall j | 0 <= j < |members|
      ensures twice[j] == members[j]
    {
      if members[j].id == id {
        ToggleTwice(members[j].status);
      }
    }
  }

  /** The stored list after the toggle loop has written, one by one and in
      list order, the toggled copy of every shown member carrying `id`. */
  function WriteToggled(stored: seq<Member>, shown: seq<Member>, id: string): seq<Member>
    decreases |shown|
  {
    if shown == [] then stored
    else
      var prev := WriteToggled(stored, shown[..|shown| - 1], id);
      var m := shown[|shown| - 1];
      if m.id == id then Storage.ReplaceById(prev, WithToggledStatus(m)) else prev
  }

  /** When no shown member carries `id`, the store is left as it was. */
  lemma {:induction false} WriteToggledNone(stored: seq<Member>, shown: seq<Member>, id: string)
    requires forall j :: 0 <= j < |shown| ==> shown[j].id != id
    ensures WriteToggled(stored, shown, id) == stored
    decreases |shown|
  {
    if shown != [] {
      WriteToggledNone(stored, shown[..|shown| - 1], id);
    }
  }

  /** When exactly one shown member carries `id`, the store ends up with its
      toggled copy in place of every stored member with that id, which is
      one `updateMember` call. */
  lemma {:induction false} WriteToggledUnique(stored: seq<Member>, shown: seq<Member>, id: string, k: nat)
    requires k < |shown| && shown[k].id == id
    requires forall j :: 0 <= j < |shown| && j != k ==> shown[j].id != id
    ensures WriteToggled(stored, shown, id) == Storage.ReplaceById(stored, WithToggledStatus(shown[k]))
    decreases |shown|
  {
    var init := shown[..|shown| - 1];
    if k == |shown| - 1 {
      WriteToggledNone(stored, init, id);
    } else {
      WriteToggledUnique(stored, init, id, k);
    }
  }

  // ---------------------------------------------------------------------
  // handleAddMember (MemberList.tsx:67-83)

  /** The record the form hands to `addMember`: an active member whose total
      and remaining tickets are both the chosen count, with the photos
      taken, joining `today`. */
  function FormDraft(name: string, phone: string, tickets: int, faceImages: seq<string>, today: string): (d: Storage.MemberDraft)
    ensures d.name == name && d.phone == phone && d.joinDate == today
    ensures d.status == Active && d.totalTickets == tickets && d.remainingTickets == tickets
    ensures d.faceImages == faceImages && d.belt == None && d.stripes == None && d.memo == ""
  {
    Storage.MemberDraft(name, phone, today, tickets, tickets, Active, None, None, "", faceImages)
  }

  class MemberList {
    const ledger: Ledger
    var members: seq<Member>
    var searchTerm: string
    var isAddModalOpen: bool
    var isCapturing: bool
    var capturedImages: seq<string>
    var newName: string
    var newPhone: string
    var newTickets: int

    /** At most one face photo is ever held. */
    ghost predicate Valid()
      reads this
    {
      |capturedImages| <= 1
    }

    /** The page opens on the stored members with an empty, closed form
        (MemberList.tsx:8-19). */
    constructor (ledger: Ledger)
      ensures Valid()
      ensures this.ledger == ledger && members == ledger.members
      ensures searchTerm == "" && !isAddModalOpen && !isCapturing && capturedImages == []
      ensures newName == "" && newPhone == "" && newTickets == DefaultTickets
    {
      this.ledger := ledger;
      members := ledger.members;
      searchTerm := "";
      isAddModalOpen := false;
      isCapturing := false;
      capturedImages := [];
      newName := "";
      newPhone := "";
      newTickets := DefaultTickets;
    }

    /** Typing into the search box. */
    method SetSearchTerm(term: string)
      modifies this
      ensures searchTerm == term
      ensures members == old(members) && capturedImages == old(capturedImages)
      ensures isAddModalOpen == old(isAddModalOpen) && isCapturing == old(isCapturing)
      ensures newName == old(newName) && newPhone == old(newPhone) && newTickets == old(newTickets)
    {
      searchTerm := term;
    }

    /** Typing into the add-member form. */
    method EditForm(name: string, phone: string, tickets: int)
      modifies this
      ensures newName == name && newPhone == phone && newTickets == tickets
      ensures members == old(members) && searchTerm == old(searchTerm) && capturedImages == old(capturedImages)
      ensures isAddModalOpen == old(isAddModalOpen) && isCapturing == old(isCapturing)
    {
      newName := name;
      newPhone := phone;
      newTickets := tickets;
    }

    /** The "add member" button (MemberList.tsx:115). */
    method OpenAddModal()
      modifies this
      ensures isAddModalOpen
      ensures members == old(members) && searchTerm == old(searchTerm) && capturedImages == old(capturedImages)
      ensures isCapturing == old(isCapturing)
      ensures newName == old(newName) && newPhone == old(newPhone) && newTickets == old(newTickets)
    {
      isAddModalOpen := true;
    }

    /** `startFaceRegistration` (MemberList.tsx:25-37): the camera view opens,
        and closes again when the camera cannot be started. */
    method StartFaceRegistration(cameraStarted: bool)
      modifies this
      ensures isCapturing == cameraStarted
      ensures members == old(members) && searchTerm == old(searchTerm) && capturedImages == old(capturedImages)
      ensures isAddModalOpen == old(isAddModalOpen)
      ensures newName == old(newName) && newPhone == old(newPhone) && newTickets == old(newTickets)
    {
      isCapturing := true;
      if !cameraStarted {
        isCapturing := false;
      }
    }

    /** The "retake" button (MemberList.tsx:319): drop the photo and start again. */
    method RetakeSamples(cameraStarted: bool)
      modifies this
      ensures Valid()
      ensures capturedImages == [] && isCapturing == cameraStarted
      ensures members == old(members) && searchTerm == old(searchTerm)
      ensures isAddModalOpen == old(isAddModalOpen)
      ensures newName == old(newName) && newPhone == old(newPhone) && newTickets == old(newTickets)
    {
      capturedImages := [];
      StartFaceRegistration(cameraStarted);
    }

    /** `stopCamera` (MemberList.tsx:58-65). */
    method StopCamera()
      modifies this
      ensures !isCapturing
      ensures members == old(members) && searchTerm == old(searchTerm) && capturedImages == old(capturedImages)
      ensures isAddModalOpen == old(isAddModalOpen)
      ensures newName == old(newName) && newPhone == old(newPhone) && newTickets == old(newTickets)
    {
      isCapturing := false;
    }

    /** `captureFace` (MemberList.tsx:39-56): while the camera view is open
        and no photo is held, the current `frame` is kept and the camera
        closes. Otherwise nothing happens. */
    method CaptureFace(frame: string)
      requires Valid()
      modifies this
      ensures Valid()
      ensures old(isCapturing) && old(capturedImages) == [] ==>
        capturedImages == [frame] && !isCapturing
      ensures !(old(isCapturing) && old(capturedImages) == []) ==>
        capturedImages == old(capturedImages) && isCapturing == old(isCapturing)
      ensures members == old(members) && searchTerm == old(searchTerm)
      ensures isAddModalOpen == old(isAddModalOpen)
      ensures newName == old(newName) && newPhone == old(newPhone) && newTickets == old(newTickets)
    {
      if isCapturing && |capturedImages| < 1 {
        var before := |capturedImages|;
        capturedImages := capturedImages + [frame];
        if before == 0 {
          StopCamera();
        }
      }
    }

    /** `closeModal` (MemberList.tsx:85-92): the form is emptied and closed. */
    method CloseModal()
      modifies this
      ensures Valid()
      ensures !isCapturing && !isAddModalOpen && capturedImages == []
      ensures newName == "" && newPhone == "" && newTickets == DefaultTickets
      ensures members == old(members) && searchTerm == old(searchTerm)
    {
      StopCamera();
      isAddModalOpen := false;
      newName := "";
      newPhone := "";
      newTickets := DefaultTickets;
      capturedImages := [];
    }

    /** `handleAddMember`: with a name and a phone, the form's member is
        stored, shown at the end of the list, and the form is closed. With
        either missing, nothing happens. `id`, `today` and `now` are what
        the source reads from the clock. */
    method HandleAddMember(id: string, today: string, now: string)
      requires Valid()
      modifies this, ledger
      ensures Valid()
      ensures old(newName) == "" || old(newPhone) == "" ==> unchanged(this) && unchanged(ledger)
      ensures old(newName) != "" && old(newPhone) != "" ==>
        var m := Storage.NewMember(FormDraft(old(newName), old(newPhone), old(newTickets), old(capturedImages), today), id, today, now);
        && ledger.members == old(ledger.members) + [m]
        && members == old(members) + [m]
        && ledger.attendance == old(ledger.attendance) && ledger.currentId == old(ledger.currentId)
        && !isAddModalOpen && !isCapturing && capturedImages == []
        && newName == "" && newPhone == "" && newTickets == DefaultTickets
        && searchTerm == old(searchTerm)
      ensures old(newName) != "" && old(newPhone) != "" ==>
        var m := members[|members| - 1];
        && m.id == id && m.name == old(newName) && m.phone == old(newPhone) && m.joinDate == today
        && m.status == Active && m.totalTickets == old(newTickets) && m.remainingTickets == old(newTickets)
        && m.faceImages == old(capturedImages) && |m.faceImages| <= 1
    {
      if newName == "" || newPhone == "" {
        return;
      }
      var draft := FormDraft(newName, newPhone, newTickets, capturedImages, today);
      var m := ledger.AddMember(draft, id, today, now);
      members := members + [m];
      CloseModal();
    }

    /** `handleToggleStatus`: every shown member carrying `id` has its status
        toggled, and each toggled copy is written to the store with
        `updateMember`, in list order. With unique ids that is one toggled
        member in place, and with no such member the store is untouched. */
    method HandleToggleStatus(id: string)
      modifies this, ledger
      ensures members == ToggleById(old(members), id)
      ensures ledger.members == WriteToggled(old(ledger.members), old(members), id)
      ensures forall k :: 0 <= k < |old(members)| && old(members)[k].id == id && StorageLemmas.UniqueIds(old(members)) ==>
        ledger.members == Storage.ReplaceById(old(ledger.members), WithToggledStatus(old(members)[k]))
      ensures (forall k :: 0 <= k < |old(members)| ==> old(members)[k].id != id) ==>
        ledger.members == old(ledger.members)
      ensures ledger.attendance == old(ledger.attendance) && ledger.currentId == old(ledger.currentId)
      ensures searchTerm == old(searchTerm) && capturedImages == old(capturedImages)
      ensures isAddModalOpen == old(isAddModalOpen) && isCapturing == old(isCapturing)
      ensures newName == old(newName) && newPhone == old(newPhone) && newTickets == old(newTickets)
    {
      var shown := members;
      var updated: seq<Member> := [];
      var i := 0;
      while i < |shown|
        invariant 0 <= i <= |shown|
        invariant |updated| == i
        invariant forall j :: 0 <= j < i ==>
          updated[j] == if shown[j].id == id then WithToggledStatus(shown[j]) else shown[j]
        invariant ledger.members == WriteToggled(old(ledger.members), shown[..i], id)
        invariant ledger.attendance == old(ledger.attendance) && ledger.currentId == old(ledger.currentId)
        invariant members == old(members) && shown == old(members)
        invariant searchTerm == old(searchTerm) && capturedImages == old(capturedImages)
        invariant isAddModalOpen == old(isAddModalOpen) && isCapturing == old(isCapturing)
        invariant newName == old(newName) && newPhone == old(newPhone) && newTickets == old(newTickets)
      {
        var m := shown[i];
        assert shown[..i + 1][..i] == shown[..i];
        if m.id == id {
          var u := WithToggledStatus(m);
          ledger.UpdateMember(u);
          updated := updated + [u];
        } else {
          updated := updated + [m];
        }
        i := i + 1;
      }
      assert shown[..|shown|] == shown;
      assert updated == ToggleById(shown, id);
      members := updated;
      forall k | 0 <= k < |shown| && shown[k].id == id && StorageLemmas.UniqueIds(shown)
        ensures WriteToggled(old(ledger.members), shown, id) == Storage.ReplaceById(old(ledger.members), WithToggledStatus(shown[k]))
      {
        WriteToggledUnique(old(ledger.members), shown, id, k);
      }
      if forall k :: 0 <= k < |shown| ==> shown[k].id != id {
        WriteToggledNone(old(ledger.members), shown, id);
      }
    }
  }
}
