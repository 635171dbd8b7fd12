/**
 * The `users` collection behind the `User` model, as the services use it:
 * records keyed by id, the unique index on `email`, and the queries the
 * services issue (find one, find by id, find with sort/skip/limit, count,
 * update, delete).
 */
module Users {
  import opened Wrappers

  type Id = nat

  datatype Role = User | Admin

  function RoleName(r: Role): string {
    match r
    case User => "user"
    case Admin => "admin"
  }

  /** A stored user; `password` holds the hash, never the plain text. */
  datatype UserRecord = UserRecord(
    name: string,
    email: string,
    password: string,
    role: Role,
    isActive: bool,
    lastLogin: Option<nat>,
    loginCount: nat,
    createdAt: nat)

  /** A user as returned to callers (`toJSON()` or `select('-password')`): there is no password field. */
  datatype UserView = UserView(
    id: Id,
    name: string,
    email: string,
    role: Role,
    isActive: bool,
    lastLogin: Option<nat>,
    loginCount: nat,
    createdAt: nat)

  function View(id: Id, rec: UserRecord): UserView {
    UserView(id, rec.name, rec.email, rec.role, rec.isActive, rec.lastLogin, rec.loginCount, rec.createdAt)
  }

  /** Where a store call raises instead of answering: at the first query, or at the first write. */
  datatype Fault = NoFault | ReadFails | WriteFails

  /** The unique index `{email: 1}`. */
  ghost predicate EmailsUnique(m: map<Id, UserRecord>) {
    forall i, j :: i in m && j in m && i != j ==> m[i].email != m[j].email
  }

  predicate EmailTaken(m: map<Id, UserRecord>, email: string) {
    exists id :: id in m && m[id].email == email
  }

  predicate EmailTakenByOther(m: map<Id, UserRecord>, self: Id, email: string) {
    exists id :: id in m && id != self && m[id].email == email
  }

  /** A query filter: each present field must match. */
  datatype Query = Query(email: Option<string>, role: Option<Role>, isActive: Option<bool>)

  predicate Matches(q: Query, rec: UserRecord) {
    && (q.email.Some? ==> rec.email == q.email.value)
    && (q.role.Some? ==> rec.role == q.role.value)
    && (q.isActive.Some? ==> rec.isActive == q.isActive.value)
  }

  /** The ids `User.countDocuments(query)` counts. */
  function MatchingIds(m: map<Id, UserRecord>, q: Query): set<Id> {
    set id | id in m && Matches(q, m[id])
  }

  /** The fields an update document may set. */
  datatype Patch = Patch(name: Option<string>, email: Option<string>, role: Option<Role>, isActive: Option<bool>)

  function Apply(rec: UserRecord, p: Patch): UserRecord {
    rec.(name := if p.name.Some? then p.name.value else rec.name,
         email := if p.email.Some? then p.email.value else rec.email,
         role := if p.role.Some? then p.role.value else rec.role,
         isActive := if p.isActive.Some? then p.isActive.value else rec.isActive)
  }

  /** `sort({createdAt: -1})` */
  ghost predicate NewestFirst(s: seq<UserView>) {
    forall i, j :: 0 <= i < j < |s| ==> s[i].createdAt >= s[j].createdAt
  }

  /** Inserts `v` before the first element that is not newer than it. */
  function InsertNewestFirst(v: UserView, s: seq<UserView>): (r: seq<UserView>)
    ensures |r| == |s| + 1
    ensures forall x :: x in r <==> x in s || x == v
    ensures multiset(r) == multiset(s) + multiset{v}
  {
    if s == [] || v.createdAt >= s[0].createdAt then [v] + s
    else
      assert s == [s[0]] + s[1..];
      [s[0]] + InsertNewestFirst(v, s[1..])
  }

  lemma {:induction false} InsertKeepsNewestFirst(v: UserView, s: seq<UserView>)
    requires NewestFirst(s)
    ensures NewestFirst(InsertNewestFirst(v, s))
  {
    if s != [] && v.createdAt < s[0].createdAt {
      var tail := s[1..];
      assert NewestFirst(tail) by {
        forall i, j | 0 <= i < j < |tail| ensures tail[i].createdAt >= tail[j].createdAt {
          assert tail[i] == s[i + 1] && tail[j] == s[j + 1];
        }
      }
      InsertKeepsNewestFirst(v, tail);
      var rest := InsertNewestFirst(v, tail);
      var r := [s[0]] + rest;
      forall i, j | 0 <= i < j < |r| ensures r[i].createdAt >= r[j].createdAt {
        if i == 0 {
          assert r[j] == rest[j - 1] && rest[j - 1] in rest;
          if r[j] != v {
            var k :| 0 <= k < |tail| && tail[k] == r[j];
            assert tail[k] == s[k + 1];
          }
        } else {
          assert r[i] == rest[i - 1] && r[j] == rest[j - 1];
        }
      }
    }
  }

  function Min(a: int, b: int): int {
    if a <= b then a else b
  }

  /** `skip(skip).limit(limit)` */
  function Window(s: seq<UserView>, skip: nat, limit: nat): (r: seq<UserView>)
    ensures |r| == if skip >= |s| then 0 else Min(limit, |s| - skip)
    ensures forall k :: 0 <= k < |r| ==> r[k] == s[skip + k]
  {
    if skip >= |s| then [] else s[skip..skip + Min(limit, |s| - skip)]
  }

  /** The result of `findByIdAndUpdate`. */
  datatype UpdateOutcome = Updated(rec: UserRecord) | NoSuchId | DuplicateEmail

  class UserStore {
    var records: map<Id, UserRecord>
    var nextId: Id

    ghost predicate Valid()
      reads this
    {
      && EmailsUnique(records)
      && forall id :: id in records ==> id < nextId
    }

    constructor()
      ensures Valid() && records == map[]
    {
      records := map[];
      nextId := 0;
    }

    /** `User.findOne(query)` */
    method FindOne(q: Query) returns (id: Option<Id>)
      ensures id.Some? ==> id.value in records && Matches(q, records[id.value])
      ensures id.None? ==> MatchingIds(records, q) == {}
    {
      if exists i :: i in records && Matches(q, records[i]) {
        var i :| i in records && Matches(q, records[i]);
        return Some(i);
      }
      return None;
    }

    /**
     * `User.find(query).select('-password').skip(skip).limit(limit).sort({createdAt: -1})`:
     * some newest-first order of the matching users (ties in any order),
     * from position `skip`, at most `limit` of them.
     */
    method Find(q: Query, skip: nat, limit: nat) returns (page: seq<UserView>, ghost ordered: seq<UserView>)
      ensures NewestFirst(ordered)
      ensures forall v :: v in ordered <==> v.id in MatchingIds(records, q) && v == View(v.id, records[v.id])
      ensures |ordered| == |MatchingIds(records, q)|
      ensures page == Window(ordered, skip, limit)
    {
      var matching := MatchingIds(records, q);
      var pending := matching;
      ghost var done: set<Id> := {};
      var sorted: seq<UserView> := [];
      while pending != {}
        invariant pending !! done && pending + done == matching
        invariant NewestFirst(sorted)
        invariant forall v :: v in sorted <==> v.id in done && v == View(v.id, records[v.id])
        invariant |sorted| == |done|
        decreases pending
      {
        var id :| id in pending;
        InsertKeepsNewestFirst(View(id, records[id]), sorted);
        sorted := InsertNewestFirst(View(id, records[id]), sorted);
        pending := pending - {id};
        done := done + {id};
      }
      ordered := sorted;
      page := Window(sorted, skip, limit);
    }

    /** `new User(rec).save()` for a new record: ids are fresh, emails must be too. */
    method Insert(rec: UserRecord) returns (id: Id)
      requires Valid() && !EmailTaken(records, rec.email)
      modifies this
      ensures Valid()
      ensures id == old(nextId) && id !in old(records)
      ensures records == old(records)[id := rec]
    {
      id := nextId;
      records := records[id := rec];
      nextId := nextId + 1;
    }

    /** `user.save()` for a loaded record whose email is unchanged. */
    method Save(id: Id, rec: UserRecord)
      requires Valid() && id in records && rec.email == records[id].email
      modifies this
      ensures Valid()
      ensures records == old(records)[id := rec] && nextId == old(nextId)
    {
      records := records[id := rec];
    }

    /**
     * `User.findByIdAndUpdate(id, patch, {new: true})`: the unique index
     * rejects an email another record already has.
     */
    method FindByIdAndUpdate(id: Id, patch: Patch) returns (r: UpdateOutcome)
      requires Valid()
      modifies this
      ensures Valid() && nextId == old(nextId)
      ensures id !in old(records) ==> r == NoSuchId && records == old(records)
      ensures id in old(records) && patch.email.Some? && EmailTakenByOther(old(records), id, patch.email.value) ==>
        r == DuplicateEmail && records == old(records)
      ensures id in old(records) && !(patch.email.Some? && EmailTakenByOther(old(records), id, patch.email.value)) ==>
        r == Updated(Apply(old(records)[id], patch)) && records == old(records)[id := Apply(old(records)[id], patch)]
    {
      if id !in records {
        return NoSuchId;
      }
      if patch.email.Some? && EmailTakenByOther(records, id, patch.email.value) {
        return DuplicateEmail;
      }
      var rec := Apply(records[id], patch);
      records := records[id := rec];
      return Updated(rec);
    }

    /** `User.findByIdAndDelete(id)`: the removed record, if there was one. */
    method FindByIdAndDelete(id: Id) returns (r: Option<UserRecord>)
      requires Valid()
      modifies this
      ensures Valid() && nextId == old(nextId)
      ensures id !in old(records) ==> r == None && records == old(records)
      ensures id in old(records) ==> r == Some(old(records)[id]) && records == old(records) - {id}
    {
      if id !in records {
        return None;
      }
      r := Some(records[id]);
      records := records - {id};
    }
  }

}
