/**
 * The `users` slice of the client store: the list of accounts on screen, the pagination state and a
 * cache of fetched pages. Each reducer updates the draft state in place.
 */
module UsersSlice {
  import opened Accounts

  /** Position of the first account whose id is `id`, or -1: `findIndex`. */
  function FirstMatch(users: seq<Account>, id: string): (k: int)
    ensures -1 <= k < |users|
    ensures k == -1 <==> forall j :: 0 <= j < |users| ==> users[j].id != id
    ensures k >= 0 ==> users[k].id == id && forall j :: 0 <= j < k ==> users[j].id != id
  {
    if users == [] then -1
    else if users[0].id == id then 0
    else
      var k := FirstMatch(users[1..], id);
      assert forall j :: 1 <= j < |users| ==> users[j] == users[1..][j - 1];
      if k == -1 then -1 else k + 1
  }

  /** What `updateUser` leaves in the list: the first account with the same id replaced, or the list as it was. */
  function Updated(users: seq<Account>, user: Account): seq<Account> {
    var k := FirstMatch(users, user.id);
    if k == -1 then users else users[k := user]
  }

  /** What `removeUser` leaves in the list: every account whose id is not `id`, in their order. */
  function Without(users: seq<Account>, id: string): (r: seq<Account>)
    ensures forall j :: 0 <= j < |r| ==> r[j].id != id
  {
    if users == [] then []
    else (if users[0].id == id then [] else [users[0]]) + Without(users[1..], id)
  }

  class UsersState {
    var users: seq<Account>
    var currentPage: int
    var pageSize: int
    var total: int
    var pages: map<int, seq<Account>>
    var fetchedPages: seq<int>

    /** `initialState`: no accounts, page 1 of size 10, nothing counted or cached. */
    constructor ()
      ensures users == [] && currentPage == 1 && pageSize == 10 && total == 0
      ensures pages == map[] && fetchedPages == []
    {
      users := [];
      currentPage := 1;
      pageSize := 10;
      total := 0;
      pages := map[];
      fetchedPages := [];
    }

    method SetUsers(list: seq<Account>)
      modifies this
      ensures users == list
      ensures currentPage == old(currentPage) && pageSize == old(pageSize) && total == old(total)
      ensures pages == old(pages) && fetchedPages == old(fetchedPages)
    {
      users := list;
    }

    method SetCurrentPage(page: int)
      modifies this
      ensures currentPage == page
      ensures users == old(users) && pageSize == old(pageSize) && total == old(total)
      ensures pages == old(pages) && fetchedPages == old(fetchedPages)
    {
      currentPage := page;
    }

    method SetPageSize(size: int)
      modifies this
      ensures pageSize == size
      ensures users == old(users) && currentPage == old(currentPage) && total == old(total)
      ensures pages == old(pages) && fetchedPages == old(fetchedPages)
    {
      pageSize := size;
    }

    method SetTotal(count: int)
      modifies this
      ensures total == count
      ensures users == old(users) && currentPage == old(currentPage) && pageSize == old(pageSize)
      ensures pages == old(pages) && fetchedPages == old(fetchedPages)
    {
      total := count;
    }

    method SetPages(cache: map<int, seq<Account>>)
      modifies this
      ensures pages == cache
      ensures users == old(users) && currentPage == old(currentPage) && pageSize == old(pageSize)
      ensures total == old(total) && fetchedPages == old(fetchedPages)
    {
      pages := cache;
    }

    method SetFetchedPages(fetched: seq<int>)
      modifies this
      ensures fetchedPages == fetched
      ensures users == old(users) && currentPage == old(currentPage) && pageSize == old(pageSize)
      ensures total == old(total) && pages == old(pages)
    {
      fetchedPages := fetched;
    }

    /** `addUser`: push at the end. */
    method AddUser(user: Account)
      modifies this
      ensures users == old(users) + [user]
      ensures currentPage == old(currentPage) && pageSize == old(pageSize) && total == old(total)
      ensures pages == old(pages) && fetchedPages == old(fetchedPages)
    {
      users := users + [user];
    }

    /** The scan `findIndex` makes over the list. */
    method FindIndex(id: string) returns (k: int)
      ensures k == FirstMatch(users, id)
    {
      k := 0;
      while k < |users| && users[k].id != id
        invariant 0 <= k <= |users|
        invariant forall j :: 0 <= j < k ==> users[j].id != id
      {
        k := k + 1;
      }
      if k == |users| {
        k := -1;
      }
    }

    /** `updateUser`: overwrite the first account with the same id, if there is one. */
    method UpdateUser(user: Account)
      modifies this
      ensures users == Updated(old(users), user)
      ensures currentPage == old(currentPage) && pageSize == old(pageSize) && total == old(total)
      ensures pages == old(pages) && fetchedPages == old(fetchedPages)
    {
      var index := FindIndex(user.id);
      if index != -1 {
        users := users[index := user];
      }
    }

    /** `removeUser`: keep the accounts whose id differs. */
    method RemoveUser(id: string)
      modifies this
      ensures users == Without(old(users), id)
      ensures currentPage == old(currentPage) && pageSize == old(pageSize) && total == old(total)
      ensures pages == old(pages) && fetchedPages == old(fetchedPages)
    {
      users := Without(users, id);
    }
  }

  /** `updateUser` keeps the length, puts the account at the first match, and leaves every other position alone. */
  lemma UpdateReplacesFirstMatchOnly(users: seq<Account>, user: Account)
    ensures |Updated(users, user)| == |users|
    ensures var k := FirstMatch(users, user.id);
      forall j :: 0 <= j < |users| ==> Updated(users, user)[j] == if j == k then user else users[j]
  {
  }

  /** An id that is not in the list leaves it unchanged. */
  lemma UpdateUnknownIdKeepsList(users: seq<Account>, user: Account)
    requires forall j :: 0 <= j < |users| ==> users[j].id != user.id
    ensures Updated(users, user) == users
  {
  }

  /** After `updateUser` the first account with that id is the new one, and the ids are what they were. */
  lemma UpdateThenFind(users: seq<Account>, user: Account)
    requires exists j :: 0 <= j < |users| && users[j].id == user.id
    ensures var k := FirstMatch(users, user.id);
      FirstMatch(Updated(users, user), user.id) == k && Updated(users, user)[k] == user
  {
    var k := FirstMatch(users, user.id);
    var r := Updated(users, user);
    assert r == users[k := user];
    assert forall j :: 0 <= j < k ==> r[j] == users[j];
    FirstMatchAt(r, user.id, k);
  }

  /** The first position holding the id is what `FirstMatch` finds. */
  lemma FirstMatchAt(users: seq<Account>, id: string, k: nat)
    requires k < |users| && users[k].id == id
    requires forall j :: 0 <= j < k ==> users[j].id != id
    ensures FirstMatch(users, id) == k
  {
    var f := FirstMatch(users, id);
    assert f != -1 by { assert users[k].id == id; }
    assert !(f < k) && !(k < f);
  }

  /** `removeUser` works piecewise, so the accounts it keeps stay in their order. */
  lemma {:induction false} WithoutAppend(a: seq<Account>, b: seq<Account>, id: string)
    ensures Without(a + b, id) == Without(a, id) + Without(b, id)
  {
    if a == [] {
      assert a + b == b;
    } else {
      var ab := a + b;
      var head := if a[0].id == id then [] else [a[0]];
      assert ab[0] == a[0];
      assert ab[1..] == a[1..] + b;
      assert Without(ab, id) == head + Without(a[1..] + b, id);
      assert Without(a, id) == head + Without(a[1..], id);
      WithoutAppend(a[1..], b, id);
      assert head + (Without(a[1..], id) + Without(b, id)) == (head + Without(a[1..], id)) + Without(b, id);
    }
  }

  /** Every account `removeUser` keeps was in the list. */
  lemma {:induction false} WithoutKeepsListed(users: seq<Account>, id: string)
    ensures forall j :: 0 <= j < |Without(users, id)| ==> Without(users, id)[j] in users
  {
    if users != [] {
      WithoutKeepsListed(users[1..], id);
      var rest := Without(users[1..], id);
      var head := if users[0].id == id then [] else [users[0]];
      assert Without(users, id) == head + rest;
      forall j | 0 <= j < |head + rest|
        ensures (head + rest)[j] in users
      {
        if j >= |head| {
          assert (head + rest)[j] == rest[j - |head|];
          assert rest[j - |head|] in users[1..];
        }
      }
    }
  }

  /** Every account with another id is kept. */
  lemma {:induction false} WithoutKeepsOthers(users: seq<Account>, id: string)
    ensures forall j :: 0 <= j < |users| && users[j].id != id ==> users[j] in Without(users, id)
  {
    if users != [] {
      WithoutKeepsOthers(users[1..], id);
      assert forall j :: 1 <= j < |users| ==> users[j] == users[1..][j - 1];
    }
  }

  /** A list with no account of that id is left as it is. */
  lemma {:induction false} WithoutAbsentId(users: seq<Account>, id: string)
    requires forall j :: 0 <= j < |users| ==> users[j].id != id
    ensures Without(users, id) == users
  {
    if users != [] {
      WithoutAbsentId(users[1..], id);
      assert users == [users[0]] + users[1..];
    }
  }

  /** Removing an account just added is the same as removing from the list before the addition. */
  lemma AddThenRemove(users: seq<Account>, user: Account)
    ensures Without(users + [user], user.id) == Without(users, user.id)
  {
    WithoutAppend(users, [user], user.id);
    assert [user][1..] == [];
  }
}
