/** `UserServiceImpl`: lookup and search over a fixed, in-memory list of
    users. The list is a value here; no operation changes it. The mapping
    to the data-transfer object (`UserMapper.toUserDto`) is a parameter. */
module UserService {
  import opened Wrappers
  import opened JavaLang
  import opened Seqs

  datatype User = User(id: int, name: string, email: string, address: string, password: string)

  /** The list as the static initializer fills it. */
  function Seeded(): seq<User> {
    [ User(1, "Thai", "thaimeo1131@gmail.com", "123 Son Son", "123"),
      User(2, "Dao", "meo1@gmail.com", "95 Son Tay", "123"),
      User(3, "Ninh", "tamo11@gmail.com", "12 Son A", "123"),
      User(4, "Xuyen", "taeo3@gmail.com", "96 Tay B", "123") ]
  }

  /** The exception `getUserById` throws for an unknown id. */
  datatype NotFound = NotFoundException(message: string)

  const NotFoundMessage: string := "User đéo tồn tại >< !"

  /** One transfer object per user, in order. */
  function MapAll<D>(users: seq<User>, toDto: User -> D): (r: seq<D>)
    ensures |r| == |users|
    ensures forall i | 0 <= i < |users| :: r[i] == toDto(users[i])
  {
    seq(|users|, i requires 0 <= i < |users| => toDto(users[i]))
  }

  /** `getListUsers()`. */
  method GetListUsers<D>(users: seq<User>, toDto: User -> D) returns (r: seq<D>)
    ensures |r| == |users|
    ensures forall i | 0 <= i < |users| :: r[i] == toDto(users[i])
  {
    r := [];
    for i := 0 to |users|
      invariant |r| == i
      invariant forall j | 0 <= j < i :: r[j] == toDto(users[j])
    {
      r := r + [toDto(users[i])];
    }
  }

  /** Position of the first user with the given id. */
  function FirstWithId(users: seq<User>, id: int): (r: Option<nat>)
    ensures r.None? <==> forall i | 0 <= i < |users| :: users[i].id != id
    ensures r.Some? ==> r.value < |users| && users[r.value].id == id
    ensures r.Some? ==> forall i | 0 <= i < r.value :: users[i].id != id
  {
    FirstIndex(users, (u: User) => u.id == id)
  }

  /** `getUserById(id)`: the first user with the id, or `NotFoundException`. */
  function GetUserById<D>(users: seq<User>, id: int, toDto: User -> D): (r: Result<D, NotFound>)
    ensures r.Failure? <==> forall i | 0 <= i < |users| :: users[i].id != id
    ensures r.Failure? ==> r.error == NotFoundException(NotFoundMessage)
    ensures r.Success? ==> exists i | 0 <= i < |users| ::
      && users[i].id == id && r.value == toDto(users[i])
      && forall j | 0 <= j < i :: users[j].id != id
  {
    match FirstWithId(users, id)
    case None => Failure(NotFoundException(NotFoundMessage))
    case Some(i) => Success(toDto(users[i]))
  }

  /** The users whose name contains `keyword`, in list order. */
  function Matching(users: seq<User>, keyword: string): (r: seq<User>)
    ensures |r| <= |users|
    ensures forall i | 0 <= i < |r| :: r[i] in users && Contains(r[i].name, keyword)
  {
    if |users| == 0 then []
    else (if Contains(users[0].name, keyword) then [users[0]] else []) + Matching(users[1..], keyword)
  }

  /** Filtering distributes over concatenation: order is preserved. */
  lemma {:induction false} MatchingAppend(a: seq<User>, b: seq<User>, keyword: string)
    ensures Matching(a + b, keyword) == Matching(a, keyword) + Matching(b, keyword)
  {
    if |a| == 0 {
      assert a + b == b;
    } else {
      assert (a + b)[1..] == a[1..] + b;
      MatchingAppend(a[1..], b, keyword);
    }
  }

  /** Every user whose name contains the keyword is found. */
  lemma {:induction false} MatchingComplete(users: seq<User>, keyword: string, u: User)
    requires u in users && Contains(u.name, keyword)
    ensures u in Matching(users, keyword)
  {
    if users[0] != u {
      assert u in users[1..];
      MatchingComplete(users[1..], keyword, u);
    }
  }

  /** `searchUser(keyword)`. */
  method SearchUser<D>(users: seq<User>, keyword: string, toDto: User -> D) returns (r: seq<D>)
    ensures r == MapAll(Matching(users, keyword), toDto)
  {
    r := [];
    for i := 0 to |users|
      invariant r == MapAll(Matching(users[..i], keyword), toDto)
    {
      assert users[..i + 1] == users[..i] + [users[i]];
      MatchingAppend(users[..i], [users[i]], keyword);
      assert [users[i]][1..] == [];
      if Contains(users[i].name, keyword) {
        r := r + [toDto(users[i])];
      }
    }
    assert users[..|users|] == users;
  }

  /** Searching finds exactly the users whose name contains the keyword. */
  lemma SearchFindsExactly(users: seq<User>, keyword: string, u: User)
    requires u in users
    ensures u in Matching(users, keyword) <==> Contains(u.name, keyword)
  {
    if Contains(u.name, keyword) {
      MatchingComplete(users, keyword, u);
    }
  }

  /** The seeded list holds ids 1 to 4, in order. */
  lemma SeededIds()
    ensures |Seeded()| == 4
    ensures forall i | 0 <= i < 4 :: Seeded()[i].id == i + 1
  {
  }

  /** Looking up the seeded list: id 2 is Dao, id 5 is unknown. */
  lemma SeededLookup()
    ensures GetUserById(Seeded(), 2, (u: User) => u.name) == Success("Dao")
    ensures GetUserById(Seeded(), 5, (u: User) => u.name) == Failure(NotFoundException(NotFoundMessage))
  {
    assert Seeded()[1].id == 2;
  }
}
