/**
 * The user directory (`UserService`): a paged listing ordered by id, lookup
 * by id, profile edits, activation toggling and role replacement.
 */
module UserService {
  import opened Common
  import opened Calendar
  import opened Queries
  import opened Store

  const PAGE_SIZE := 20
  const ADMIN := "ADMIN"
  const CUSTOMER := "CUSTOMER"

  /** Ordinal string order, character by character (by code point); a prefix comes first. */
  predicate StrLe(a: string, b: string)
  {
    if a == [] then true
    else if b == [] then false
    else if a[0] != b[0] then a[0] < b[0]
    else StrLe(a[1..], b[1..])
  }

  lemma {:induction false} StrLeTotal(a: string, b: string)
    ensures StrLe(a, b) || StrLe(b, a)
    decreases |a|
  {
    if a != [] && b != [] && a[0] == b[0] {
      StrLeTotal(a[1..], b[1..]);
    }
  }

  lemma {:induction false} StrLeTransitive(a: string, b: string, c: string)
    requires StrLe(a, b) && StrLe(b, c)
    ensures StrLe(a, c)
    decreases |a|
  {
    if a != [] && b != [] && c != [] && a[0] == b[0] && b[0] == c[0] {
      StrLeTransitive(a[1..], b[1..], c[1..]);
    }
  }

  lemma {:induction false} StrLeAntisymmetric(a: string, b: string)
    requires StrLe(a, b) && StrLe(b, a)
    ensures a == b
    decreases |a|
  {
    if a != [] && b != [] {
      StrLeAntisymmetric(a[1..], b[1..]);
      assert a == [a[0]] + a[1..] && b == [b[0]] + b[1..];
    }
  }

  /** Ordinal order is total and transitive, so sorting by it is well defined. */
  lemma StrLeIsTotalPreorder()
    ensures TotalPreorder(StrLe)
  {
    forall a, b ensures StrLe(a, b) || StrLe(b, a) {
      StrLeTotal(a, b);
    }
    forall a, b, c | StrLe(a, b) && StrLe(b, c) ensures StrLe(a, c) {
      StrLeTransitive(a, b, c);
    }
  }

  /** The directory ordered by id. */
  function UsersById(users: seq<User>): (r: seq<User>)
    ensures multiset(r) == multiset(users)
    ensures forall i, j :: 0 <= i < j < |r| ==> StrLe(r[i].id, r[j].id)
  {
    var key := (u: User) => u.id;
    StrLeIsTotalPreorder();
    SortBySorted(users, key, StrLe);
    SortBy(users, key, StrLe)
  }

  /**
   * `GetAllUsers`: at most twenty users in ascending id order, the run of
   * the ordered directory that starts at the page's offset; a page below 1
   * is the first page and a page past the end is empty.
   */
  function GetAllUsers(users: seq<User>, page: int): (r: seq<User>)
    ensures |r| <= PAGE_SIZE
    ensures var start := PageStart(page, PAGE_SIZE);
            && (forall i :: 0 <= i < |r| ==> start + i < |users| && r[i] == UsersById(users)[start + i])
            && (|r| == PAGE_SIZE || start + |r| >= |users|)
    ensures forall u :: u in r ==> u in users
    ensures forall i, j :: 0 <= i < j < |r| ==> StrLe(r[i].id, r[j].id)
  {
    var sorted := UsersById(users);
    assert forall u :: u in sorted ==> u in multiset(users);
    Page(sorted, page, PAGE_SIZE)
  }

  /** A page below 1 lists the same users as page 1. */
  lemma NonPositivePageIsFirst(users: seq<User>, page: int)
    requires page <= 0
    ensures GetAllUsers(users, page) == GetAllUsers(users, 1)
  {
  }

  function UserIndex(users: seq<User>, userId: UserId): (r: Option<nat>)
    ensures r.Some? ==> r.value < |users| && users[r.value].id == userId
    ensures r.None? ==> forall j :: 0 <= j < |users| ==> users[j].id != userId
  {
    IndexWhere(users, (u: User) => u.id == userId)
  }

  /** The user with the given e-mail address that the identity store finds first. */
  function EmailIndex(users: seq<User>, email: string): (r: Option<nat>)
    ensures r.Some? ==> r.value < |users| && users[r.value].email == email
    ensures r.None? ==> forall j :: 0 <= j < |users| ==> users[j].email != email
  {
    IndexWhere(users, (u: User) => u.email == email)
  }

  /** `GetUserById`: the user with that id, or NotFound. */
  function GetUserById(users: seq<User>, userId: UserId): (r: (Response, Option<User>))
    ensures r.0 == Ok || r.0 == NotFound
    ensures r.0 == NotFound <==> forall u :: u in users ==> u.id != userId
    ensures r.0 == NotFound <==> r.1.None?
    ensures r.1.Some? ==> r.1.value in users && r.1.value.id == userId
  {
    match UserIndex(users, userId)
    case None => (NotFound, None)
    case Some(i) => (Ok, Some(users[i]))
  }

  /** The editable part of a profile. */
  datatype Profile = Profile(
    firstName: string,
    lastName: string,
    phoneNumber: Option<string>,
    gender: Option<string>,
    dob: Option<DateTime>,
    avatar: Option<string>,
    address: Option<string>)

  /** A user with a new profile; identity, e-mail, activation and roles are kept. */
  function WithProfile(u: User, p: Profile): (r: User)
    ensures r.id == u.id && r.email == u.email && r.isActivated == u.isActivated && r.roles == u.roles
    ensures r.firstName == p.firstName && r.lastName == p.lastName && r.phoneNumber == p.phoneNumber
    ensures r.gender == p.gender && r.dob == p.dob && r.avatar == p.avatar && r.address == p.address
  {
    u.(firstName := p.firstName, lastName := p.lastName, phoneNumber := p.phoneNumber, gender := p.gender,
       dob := p.dob, avatar := p.avatar, address := p.address)
  }

  /** A user with the activation flag flipped and everything else kept. */
  function WithActivationToggled(u: User): (r: User)
    ensures r.isActivated == !u.isActivated
    ensures r.(isActivated := u.isActivated) == u
  {
    u.(isActivated := !u.isActivated)
  }

  /** Toggling twice restores the user. */
  lemma ToggleTwiceRestores(u: User)
    ensures WithActivationToggled(WithActivationToggled(u)) == u
  {
  }

  /** Rewriting a row without changing its id keeps ids distinct. */
  lemma ReplaceUserWellFormed(users: seq<User>, i: int, u: User)
    requires UsersWellFormed(users) && 0 <= i < |users| && u.id == users[i].id
    ensures UsersWellFormed(users[i := u])
  {
  }

  /** `UpdateAsync`: the row at `i` is replaced by a row with the same id. */
  method SaveUser(db: Db, i: int, u: User)
    requires db.Valid() && 0 <= i < |db.users| && u.id == db.users[i].id
    modifies db`users
    ensures db.Valid()
    ensures db.users == old(db.users)[i := u]
  {
    ReplaceUserWellFormed(db.users, i, u);
    db.users := db.users[i := u];
  }

  /**
   * `EditUser`: NotFound for an unknown id; otherwise the user's name,
   * phone number, gender, date of birth, avatar and address are overwritten
   * and every other user and field is left as it was.
   */
  method EditUser(db: Db, userId: UserId, profile: Profile) returns (r: Response)
    requires db.Valid()
    modifies db`users
    ensures db.Valid()
    ensures r == (if UserIndex(old(db.users), userId).Some? then Ok else NotFound)
    ensures r == NotFound ==> db.users == old(db.users)
    ensures r == Ok ==> var i := UserIndex(old(db.users), userId).value;
                        db.users == old(db.users)[i := WithProfile(old(db.users)[i], profile)]
  {
    var found := UserIndex(db.users, userId);
    if found.None? {
      return NotFound;
    }
    var i := found.value;
    SaveUser(db, i, WithProfile(db.users[i], profile));
    r := Ok;
  }

  /**
   * `ToggleUserStatus`: NotFound for an unknown id; otherwise the user's
   * activation flag is negated and nothing else changes.
   */
  method ToggleUserStatus(db: Db, userId: UserId) returns (r: Response)
    requires db.Valid()
    modifies db`users
    ensures db.Valid()
    ensures r == (if UserIndex(old(db.users), userId).Some? then Ok else NotFound)
    ensures r == NotFound ==> db.users == old(db.users)
    ensures r == Ok ==> var i := UserIndex(old(db.users), userId).value;
                        db.users == old(db.users)[i := WithActivationToggled(old(db.users)[i])]
  {
    var found := UserIndex(db.users, userId);
    if found.None? {
      return NotFound;
    }
    var i := found.value;
    SaveUser(db, i, WithActivationToggled(db.users[i]));
    r := Ok;
  }

  /** Toggling a user's status twice restores the directory. */
  lemma ToggleUserStatusTwice(users: seq<User>, userId: UserId)
    requires UserIndex(users, userId).Some?
    ensures var i := UserIndex(users, userId).value;
            var once := users[i := WithActivationToggled(users[i])];
            UserIndex(once, userId) == Some(i)
            && once[i := WithActivationToggled(once[i])] == users
  {
    var i := UserIndex(users, userId).value;
    var once := users[i := WithActivationToggled(users[i])];
    assert forall j :: 0 <= j < |once| ==> once[j].id == users[j].id;
    assert IndexWhere(once, (u: User) => u.id == userId) == IndexWhere(users, (u: User) => u.id == userId) by {
      IndexWhereSameKeys(once, users, userId, 0);
    }
  }

  /** Searching two tables whose rows have the same ids, from `from` on, gives the same answer. */
  lemma {:induction false} IndexWhereSameKeys(a: seq<User>, b: seq<User>, userId: UserId, from: nat)
    requires |a| == |b| && from <= |a|
    requires forall j :: 0 <= j < |a| ==> a[j].id == b[j].id
    ensures IndexWhere(a[from..], (u: User) => u.id == userId) == IndexWhere(b[from..], (u: User) => u.id == userId)
    decreases |a| - from
  {
    if from < |a| {
      IndexWhereSameKeys(a, b, userId, from + 1);
      assert a[from..][1..] == a[from + 1..] && b[from..][1..] == b[from + 1..];
    }
  }

  /**
   * `ChangeUserRole`: BadRequest, before any lookup, for a role other than
   * ADMIN and CUSTOMER; NotFound when no user has the e-mail address;
   * otherwise the user's roles become exactly the given one.
   */
  method ChangeUserRole(db: Db, email: string, roleName: string) returns (r: Response)
    requires db.Valid()
    modifies db`users
    ensures db.Valid()
    ensures roleName != ADMIN && roleName != CUSTOMER ==> r == BadRequest
    ensures (roleName == ADMIN || roleName == CUSTOMER) ==>
              r == (if EmailIndex(old(db.users), email).Some? then Ok else NotFound)
    ensures r != Ok ==> db.users == old(db.users)
    ensures r == Ok ==> var i := EmailIndex(old(db.users), email).value;
                        db.users == old(db.users)[i := old(db.users)[i].(roles := {roleName})]
  {
    if roleName != ADMIN && roleName != CUSTOMER {
      return BadRequest;
    }
    var found := EmailIndex(db.users, email);
    if found.None? {
      return NotFound;
    }
    var i := found.value;
    SaveUser(db, i, db.users[i].(roles := {roleName}));
    r := Ok;
  }
}
