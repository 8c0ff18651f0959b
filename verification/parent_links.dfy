/** Linking a parent account to a student account (`POST /link-child`) and
    undoing it (`DELETE /child/:childId/unlink`). Each user document carries
    optional `linkedIds` arrays: a parent lists its children in `childIds`, a
    child its parents in `parentIds`. The user collection is a sequence of
    documents; `Directory` updates it in place as the routes do. */
module ParentLinks {
  import opened Common

  type UserId = string

  /** The `linkedIds` sub-document; either array may be absent. */
  datatype Links = Links(childIds: Option<seq<UserId>>, parentIds: Option<seq<UserId>>)

  datatype Member = Member(id: UserId, email: string, role: string, linked: Option<Links>)

  datatype LinkResult =
    | Linked(child: nat)
    | EmailRequired
    | StudentNotFound
    | AlreadyLinked

  function LinkStatus(r: LinkResult): (code: int)
    ensures code == 200 <==> r.Linked?
  {
    match r
    case Linked(_) => 200
    case EmailRequired => 400
    case StudentNotFound => 404
    case AlreadyLinked => 400
  }

  datatype UnlinkResult = Unlinked | UnlinkFailed

  /** The ids in `childIds`, an absent array read as empty. */
  function ChildIds(m: Member): seq<UserId>
  {
    if m.linked.Some? && m.linked.value.childIds.Some? then m.linked.value.childIds.value else []
  }

  /** The ids in `parentIds`, an absent array read as empty. */
  function ParentIds(m: Member): seq<UserId>
  {
    if m.linked.Some? && m.linked.value.parentIds.Some? then m.linked.value.parentIds.value else []
  }

  /** `ids.filter(id => id !== x)`. */
  function Remove(ids: seq<UserId>, x: UserId): (r: seq<UserId>)
    ensures x !in r
    ensures forall y :: y != x ==> multiset(r)[y] == multiset(ids)[y]
    ensures r == Filter(ids, (y: UserId) => y != x)
  {
    var r := Filter(ids, (y: UserId) => y != x);
    forall y | y != x ensures multiset(r)[y] == multiset(ids)[y] {
      FilterMultiset(ids, (y: UserId) => y != x, y);
    }
    r
  }

  /** Removing an id that was just appended to a list without it gives the
      list back. */
  lemma RemoveAppended(ids: seq<UserId>, x: UserId)
    requires x !in ids
    ensures Remove(ids + [x], x) == ids
  {
    FilterAppend(ids, [x], (y: UserId) => y != x);
    RemoveAbsent(ids, x);
  }

  lemma {:induction false} RemoveAbsent(ids: seq<UserId>, x: UserId)
    requires x !in ids
    ensures Remove(ids, x) == ids
  {
    if ids != [] {
      var init := ids[..|ids| - 1];
      assert ids == init + [ids[|ids| - 1]];
      RemoveAbsent(init, x);
    }
  }

  /** The lookup key: `childEmail.toLowerCase().trim()`. */
  function EmailKey(email: string): string
  {
    Trim(ToLower(email))
  }

  predicate IsStudentRole(role: string)
  {
    role == "student" || role == "school_student"
  }

  predicate IsStudentWithEmail(m: Member, key: string)
  {
    m.email == key && IsStudentRole(m.role)
  }

  /** `findOne`: the first student document with that email. */
  function FindStudent(users: seq<Member>, key: string, from: nat): (r: Option<nat>)
    requires from <= |users|
    ensures r.Some? ==> from <= r.value < |users| && IsStudentWithEmail(users[r.value], key)
    ensures r.Some? ==> forall j :: from <= j < r.value ==> !IsStudentWithEmail(users[j], key)
    ensures r.None? ==> forall j :: from <= j < |users| ==> !IsStudentWithEmail(users[j], key)
    decreases |users| - from
  {
    if from == |users| then None
    else if IsStudentWithEmail(users[from], key) then Some(from)
    else FindStudent(users, key, from + 1)
  }

  /** `findById`: the first document with that id. */
  function FindById(users: seq<Member>, id: UserId, from: nat): (r: Option<nat>)
    requires from <= |users|
    ensures r.Some? ==> from <= r.value < |users| && users[r.value].id == id
    ensures r.None? ==> forall j :: from <= j < |users| ==> users[j].id != id
    decreases |users| - from
  {
    if from == |users| then None
    else if users[from].id == id then Some(from)
    else FindById(users, id, from + 1)
  }

  /** Appends to `childIds`, creating the sub-document and the array when
      absent. */
  function WithChild(m: Member, c: UserId): (r: Member)
    ensures ChildIds(r) == ChildIds(m) + [c]
    ensures ParentIds(r) == ParentIds(m)
    ensures r.id == m.id && r.email == m.email && r.role == m.role
  {
    var links := if m.linked.Some? then m.linked.value else Links(Some([]), None);
    var ids := if links.childIds.Some? then links.childIds.value else [];
    m.(linked := Some(links.(childIds := Some(ids + [c]))))
  }

  /** Appends to `parentIds`, creating the sub-document and the array when
      absent. */
  function WithParent(m: Member, p: UserId): (r: Member)
    ensures ParentIds(r) == ParentIds(m) + [p]
    ensures ChildIds(r) == ChildIds(m)
    ensures r.id == m.id && r.email == m.email && r.role == m.role
  {
    var links := if m.linked.Some? then m.linked.value else Links(None, Some([]));
    var ids := if links.parentIds.Some? then links.parentIds.value else [];
    m.(linked := Some(links.(parentIds := Some(ids + [p]))))
  }

  /** Filters `childIds` when the array is present. */
  function WithoutChild(m: Member, c: UserId): (r: Member)
    ensures ChildIds(r) == Remove(ChildIds(m), c)
    ensures ParentIds(r) == ParentIds(m)
    ensures r.id == m.id && r.email == m.email && r.role == m.role
  {
    if m.linked.Some? && m.linked.value.childIds.Some? then
      m.(linked := Some(m.linked.value.(childIds := Some(Remove(m.linked.value.childIds.value, c)))))
    else
      m
  }

  /** Filters `parentIds` when the array is present. */
  function WithoutParent(m: Member, p: UserId): (r: Member)
    ensures ParentIds(r) == Remove(ParentIds(m), p)
    ensures ChildIds(r) == ChildIds(m)
    ensures r.id == m.id && r.email == m.email && r.role == m.role
  {
    if m.linked.Some? && m.linked.value.parentIds.Some? then
      m.(linked := Some(m.linked.value.(parentIds := Some(Remove(m.linked.value.parentIds.value, p)))))
    else
      m
  }

  /** `POST /link-child` for the parent at index `p`. */
  function AfterLinkChild(users: seq<Member>, p: nat, childEmail: Option<string>): (r: (seq<Member>, LinkResult))
    requires p < |users| && users[p].role == "parent"
    ensures |r.0| == |users|
    ensures (childEmail == None || childEmail.value == "") <==> r.1 == EmailRequired
    ensures !r.1.Linked? ==> r.0 == users
    ensures r.1 == StudentNotFound ==>
      FindStudent(users, EmailKey(childEmail.value), 0) == None
    ensures r.1 == AlreadyLinked ==>
      exists c :: 0 <= c < |users| && IsStudentWithEmail(users[c], EmailKey(childEmail.value))
                  && users[c].id in ChildIds(users[p])
    ensures r.1.Linked? ==>
      var c := r.1.child;
      && c < |users| && c != p
      && FindStudent(users, EmailKey(childEmail.value), 0) == Some(c)
      && users[c].id !in ChildIds(users[p])
      && ChildIds(r.0[p]) == ChildIds(users[p]) + [users[c].id]
      && ParentIds(r.0[c]) == ParentIds(users[c]) + [users[p].id]
      && (forall j :: 0 <= j < |users| && j != p && j != c ==> r.0[j] == users[j])
  {
    if childEmail == None || childEmail.value == "" then (users, EmailRequired)
    else
      match FindStudent(users, EmailKey(childEmail.value), 0)
      case None => (users, StudentNotFound)
      case Some(c) =>
        if users[c].id in ChildIds(users[p]) then (users, AlreadyLinked)
        else
          var parent := WithChild(users[p], users[c].id);
          var child := WithParent(users[c], users[p].id);
          (users[p := parent][c := child], Linked(c))
  }

  /** A 24-digit hexadecimal string, the only id text `findById` accepts here. */
  predicate IsObjectIdText(s: string)
  {
    |s| == 24 && forall i :: 0 <= i < |s| ==> '0' <= s[i] <= '9' || 'a' <= s[i] <= 'f' || 'A' <= s[i] <= 'F'
  }

  /** `DELETE /child/:childId/unlink` for the parent at index `p`. The parent's
      list is filtered first; an id `findById` cannot cast makes the request
      fail after that change. */
  function AfterUnlink(users: seq<Member>, p: nat, childId: UserId): (r: (seq<Member>, UnlinkResult))
    requires p < |users|
    ensures |r.0| == |users|
    ensures r.1 == Unlinked <==> IsObjectIdText(childId)
    ensures ChildIds(r.0[p]) == Remove(ChildIds(users[p]), childId)
    ensures childId !in ChildIds(r.0[p])
    ensures forall y :: y != childId ==> multiset(ChildIds(r.0[p]))[y] == multiset(ChildIds(users[p]))[y]
    ensures r.1 == Unlinked && FindById(users, childId, 0).Some? ==>
      users[p].id !in ParentIds(r.0[FindById(users, childId, 0).value])
    ensures forall j :: 0 <= j < |users| && j != p && Some(j) != FindById(users, childId, 0) ==> r.0[j] == users[j]
    ensures r.1 == UnlinkFailed ==> forall j :: 0 <= j < |users| && j != p ==> r.0[j] == users[j]
    ensures r.0[p].id == users[p].id && r.0[p].email == users[p].email && r.0[p].role == users[p].role
    ensures FindById(users, childId, 0) != Some(p) || r.1 == UnlinkFailed ==> ParentIds(r.0[p]) == ParentIds(users[p])
    ensures r.1 == Unlinked && FindById(users, childId, 0).Some? ==>
      var c := FindById(users, childId, 0).value;
      && ParentIds(r.0[c]) == Remove(ParentIds(users[c]), users[p].id)
      && r.0[c].id == users[c].id && r.0[c].email == users[c].email && r.0[c].role == users[c].role
      && (c != p ==> ChildIds(r.0[c]) == ChildIds(users[c]))
  {
    var afterParent := users[p := WithoutChild(users[p], childId)];
    FindByIdIgnoresLinks(users, afterParent, childId, 0);
    if !IsObjectIdText(childId) then (afterParent, UnlinkFailed)
    else
      match FindById(afterParent, childId, 0)
      case None => (afterParent, Unlinked)
      case Some(c) => (afterParent[c := WithoutParent(afterParent[c], users[p].id)], Unlinked)
  }

  /** `findById` sees only ids, which linking and unlinking never change. */
  lemma {:induction false} FindByIdIgnoresLinks(users: seq<Member>, users': seq<Member>, id: UserId, from: nat)
    requires from <= |users| == |users'|
    requires forall j :: 0 <= j < |users| ==> users[j].id == users'[j].id
    ensures FindById(users, id, from) == FindById(users', id, from)
    decreases |users| - from
  {
    if from < |users| {
      FindByIdIgnoresLinks(users, users', id, from + 1);
    }
  }

  /** Linking a child and then unlinking it leaves the parent's children as
      they were. */
  lemma LinkThenUnlink(users: seq<Member>, p: nat, childEmail: Option<string>)
    requires p < |users| && users[p].role == "parent"
    requires AfterLinkChild(users, p, childEmail).1.Linked?
    ensures var (linked, r) := AfterLinkChild(users, p, childEmail);
      ChildIds(AfterUnlink(linked, p, users[r.child].id).0[p]) == ChildIds(users[p])
  {
    var (linked, r) := AfterLinkChild(users, p, childEmail);
    var id := users[r.child].id;
    assert ChildIds(linked[p]) == ChildIds(users[p]) + [id];
    assert ChildIds(AfterUnlink(linked, p, id).0[p]) == Remove(ChildIds(users[p]) + [id], id);
    RemoveAppended(ChildIds(users[p]), id);
  }

  class Directory {
    var users: seq<Member>

    constructor (initial: seq<Member>)
      ensures users == initial
    {
      users := initial;
    }

    method LinkChild(p: nat, childEmail: Option<string>) returns (r: LinkResult)
      requires p < |users| && users[p].role == "parent"
      modifies this
      ensures (users, r) == AfterLinkChild(old(users), p, childEmail)
    {
      if childEmail == None || childEmail.value == "" {
        return EmailRequired;
      }
      var found := FindStudent(users, Trim(ToLower(childEmail.value)), 0);
      if found == None {
        return StudentNotFound;
      }
      var c := found.value;
      var child := users[c];
      if child.id in ChildIds(users[p]) {
        return AlreadyLinked;
      }
      var parent := users[p];
      if parent.linked == None {
        parent := parent.(linked := Some(Links(Some([]), None)));
      }
      if parent.linked.value.childIds == None {
        parent := parent.(linked := Some(parent.linked.value.(childIds := Some([]))));
      }
      parent := parent.(linked := Some(parent.linked.value.(childIds := Some(parent.linked.value.childIds.value + [child.id]))));
      users := users[p := parent];
      if child.linked == None {
        child := child.(linked := Some(Links(None, Some([]))));
      }
      if child.linked.value.parentIds == None {
        child := child.(linked := Some(child.linked.value.(parentIds := Some([]))));
      }
      child := child.(linked := Some(child.linked.value.(parentIds := Some(child.linked.value.parentIds.value + [parent.id]))));
      users := users[c := child];
      r := Linked(c);
    }

    method Unlink(p: nat, childId: UserId) returns (r: UnlinkResult)
      requires p < |users|
      modifies this
      ensures (users, r) == AfterUnlink(old(users), p, childId)
    {
      var parent := users[p];
      if parent.linked.Some? && parent.linked.value.childIds.Some? {
        var kept := Remove(parent.linked.value.childIds.value, childId);
        parent := parent.(linked := Some(parent.linked.value.(childIds := Some(kept))));
        users := users[p := parent];
      }
      assert users == old(users)[p := WithoutChild(old(users)[p], childId)];
      if !IsObjectIdText(childId) {
        return UnlinkFailed;
      }
      var found := FindById(users, childId, 0);
      if found.Some? {
        var c := found.value;
        var child := users[c];
        ghost var before := users;
        if child.linked.Some? && child.linked.value.parentIds.Some? {
          var kept := Remove(child.linked.value.parentIds.value, parent.id);
          child := child.(linked := Some(child.linked.value.(parentIds := Some(kept))));
          users := users[c := child];
        }
        assert users == before[c := WithoutParent(before[c], parent.id)];
      }
      r := Unlinked;
    }
  }
}
