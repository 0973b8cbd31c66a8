/**
 * The client list as displayed: a copy of the clients ordered newest first
 * (a stable sort, so clients registered at the same time keep their order),
 * and the Instagram and Facebook links shown beside each client.
 */
module ClientsTable {
  import opened Wrappers

  /** A client; `createdAt` is the registration time as a timestamp. */
  datatype Client = Client(
    id: string,
    name: string,
    phone: Option<string>,
    instagram: Option<string>,
    facebook: Option<string>,
    createdAt: int)

  // ---------------------------------------------------------------------------
  // Ordering

  /** Registration times never increase along the list. */
  ghost predicate NewestFirst(s: seq<Client>) {
    forall i, j | 0 <= i < j < |s| :: s[i].createdAt >= s[j].createdAt
  }

  /** The clients of `s` registered at time `t`, in their order in `s`. */
  function RegisteredAt(s: seq<Client>, t: int): seq<Client> {
    if |s| == 0 then [] else (if s[0].createdAt == t then [s[0]] else []) + RegisteredAt(s[1..], t)
  }

  /** Places `c` before the first client that is not newer than it. */
  function Insert(c: Client, s: seq<Client>): seq<Client> {
    if |s| == 0 then [c]
    else if s[0].createdAt <= c.createdAt then [c] + s
    else [s[0]] + Insert(c, s[1..])
  }

  /** `[...clients].sort((a, b) => b.createdAt - a.createdAt)`, as a stable insertion sort. */
  function SortNewestFirst(clients: seq<Client>): seq<Client> {
    if |clients| == 0 then [] else Insert(clients[0], SortNewestFirst(clients[1..]))
  }

  /** A client at least as new as every client of a newest-first list can go in front of it. */
  lemma PrependNewest(x: Client, s: seq<Client>)
    requires NewestFirst(s)
    requires forall y | y in s :: y.createdAt <= x.createdAt
    ensures NewestFirst([x] + s)
  {
  }

  lemma {:induction false} InsertMembers(c: Client, s: seq<Client>)
    ensures multiset(Insert(c, s)) == multiset(s) + multiset{c}
    ensures forall x | x in Insert(c, s) :: x == c || x in s
  {
    if |s| > 0 && s[0].createdAt > c.createdAt {
      InsertMembers(c, s[1..]);
      assert s == [s[0]] + s[1..];
      assert Insert(c, s) == [s[0]] + Insert(c, s[1..]);
    }
  }

  lemma {:induction false} InsertKeepsOrder(c: Client, s: seq<Client>)
    requires NewestFirst(s)
    ensures NewestFirst(Insert(c, s))
  {
    if |s| == 0 {
    } else if s[0].createdAt <= c.createdAt {
      PrependNewest(c, s);
    } else {
      InsertKeepsOrder(c, s[1..]);
      InsertMembers(c, s[1..]);
      forall y | y in Insert(c, s[1..]) ensures y.createdAt <= s[0].createdAt {
        if y != c {
          var k :| 0 <= k < |s[1..]| && s[1..][k] == y;
          assert s[k + 1] == y;
        }
      }
      PrependNewest(s[0], Insert(c, s[1..]));
    }
  }

  lemma {:induction false} InsertKeepsTies(c: Client, s: seq<Client>, t: int)
    requires NewestFirst(s)
    ensures RegisteredAt(Insert(c, s), t) == RegisteredAt([c] + s, t)
  {
    if |s| > 0 && s[0].createdAt > c.createdAt {
      InsertKeepsTies(c, s[1..], t);
      assert ([s[0]] + Insert(c, s[1..]))[1..] == Insert(c, s[1..]);
      assert ([c] + s[1..])[1..] == s[1..];
      assert ([c] + s)[1..] == s;
      if t == c.createdAt {
        RegisteredAtNone(s, t);
      }
    } else if |s| == 0 {
      assert [c] + s == [c];
    }
  }

  /** A head registered after `t` is not among the clients registered at `t`. */
  lemma RegisteredAtNone(s: seq<Client>, t: int)
    requires |s| > 0 && s[0].createdAt > t
    ensures RegisteredAt(s, t) == RegisteredAt(s[1..], t)
  {
  }

  /** The displayed list is ordered newest first. */
  lemma {:induction false} SortedNewestFirst(clients: seq<Client>)
    ensures NewestFirst(SortNewestFirst(clients))
    ensures multiset(SortNewestFirst(clients)) == multiset(clients)
  {
    if |clients| > 0 {
      SortedNewestFirst(clients[1..]);
      InsertKeepsOrder(clients[0], SortNewestFirst(clients[1..]));
      InsertMembers(clients[0], SortNewestFirst(clients[1..]));
      assert clients == [clients[0]] + clients[1..];
    }
  }

  /** The sort is stable: the clients registered at any one time appear in their input order. */
  lemma {:induction false} SortIsStable(clients: seq<Client>, t: int)
    ensures RegisteredAt(SortNewestFirst(clients), t) == RegisteredAt(clients, t)
  {
    if |clients| > 0 {
      SortIsStable(clients[1..], t);
      SortedNewestFirst(clients[1..]);
      InsertKeepsTies(clients[0], SortNewestFirst(clients[1..]), t);
      assert ([clients[0]] + SortNewestFirst(clients[1..]))[1..] == SortNewestFirst(clients[1..]);
    }
  }

  lemma {:induction false} RegisteredAtMembers(s: seq<Client>, t: int)
    ensures forall x :: x in RegisteredAt(s, t) <==> x in s && x.createdAt == t
  {
    if |s| > 0 {
      RegisteredAtMembers(s[1..], t);
      assert s == [s[0]] + s[1..];
    }
  }

  /** The newest client of a newest-first list is at least as new as any client in it. */
  lemma HeadIsNewest(s: seq<Client>, x: Client)
    requires NewestFirst(s) && x in s
    ensures x.createdAt <= s[0].createdAt
  {
  }

  /** Two newest-first lists with the same clients at every time start with the same client. */
  lemma HeadsAgree(a: seq<Client>, b: seq<Client>)
    requires |a| > 0 && |b| > 0 && NewestFirst(a) && NewestFirst(b)
    requires forall t :: RegisteredAt(a, t) == RegisteredAt(b, t)
    ensures a[0] == b[0]
  {
    var ta, tb := a[0].createdAt, b[0].createdAt;
    RegisteredAtMembers(a, ta);
    RegisteredAtMembers(b, ta);
    RegisteredAtMembers(a, tb);
    RegisteredAtMembers(b, tb);
    assert a[0] in RegisteredAt(a, ta);
    assert b[0] in RegisteredAt(b, tb);
    assert RegisteredAt(a, ta) == RegisteredAt(b, ta);
    assert RegisteredAt(a, tb) == RegisteredAt(b, tb);
    var x :| x in b && x.createdAt == ta;
    var y :| y in a && y.createdAt == tb;
    HeadIsNewest(b, x);
    HeadIsNewest(a, y);
    assert RegisteredAt(a, ta)[0] == a[0];
    assert RegisteredAt(b, ta)[0] == b[0];
  }

  /** Dropping the same first client from two lists keeps their clients at each time equal. */
  lemma TailsAgree(a: seq<Client>, b: seq<Client>, t: int)
    requires |a| > 0 && |b| > 0 && a[0] == b[0]
    requires RegisteredAt(a, t) == RegisteredAt(b, t)
    ensures RegisteredAt(a[1..], t) == RegisteredAt(b[1..], t)
  {
  }

  lemma HasTiesAtHead(s: seq<Client>)
    ensures |s| > 0 ==> RegisteredAt(s, s[0].createdAt) != []
  {
  }

  /**
   * Any newest-first list that keeps the input order of clients registered at the
   * same time is the displayed list: the order does not depend on how the sort works.
   */
  lemma {:induction false} StableOrderUnique(a: seq<Client>, b: seq<Client>)
    requires NewestFirst(a) && NewestFirst(b)
    requires forall t :: RegisteredAt(a, t) == RegisteredAt(b, t)
    ensures a == b
    decreases |a|
  {
    if |a| == 0 || |b| == 0 {
      HasTiesAtHead(a);
      HasTiesAtHead(b);
    } else {
      HeadsAgree(a, b);
      forall t ensures RegisteredAt(a[1..], t) == RegisteredAt(b[1..], t) {
        TailsAgree(a, b, t);
      }
      StableOrderUnique(a[1..], b[1..]);
      assert a == [a[0]] + a[1..] && b == [b[0]] + b[1..];
    }
  }

  /** The displayed list is the only stable newest-first permutation of the clients. */
  lemma DisplayedOrderCharacterised(clients: seq<Client>, shown: seq<Client>)
    requires NewestFirst(shown)
    requires forall t :: RegisteredAt(shown, t) == RegisteredAt(clients, t)
    ensures shown == SortNewestFirst(clients)
  {
    SortedNewestFirst(clients);
    forall t ensures RegisteredAt(shown, t) == RegisteredAt(SortNewestFirst(clients), t) {
      SortIsStable(clients, t);
    }
    StableOrderUnique(shown, SortNewestFirst(clients));
  }

  // ---------------------------------------------------------------------------
  // Social links

  /** The position of the first `c` in `s`. */
  function IndexOf(s: string, c: char): (i: nat)
    requires c in s
    ensures i < |s| && s[i] == c && c !in s[..i]
  {
    if s[0] == c then 0
    else
      var k := IndexOf(s[1..], c);
      assert s[..k + 1] == [s[0]] + s[1..][..k];
      k + 1
  }

  /** `s.replace(c, "")` with a one-character pattern: only the first occurrence of `c` is removed. */
  function RemoveFirst(s: string, c: char): (r: string)
    ensures c !in s ==> r == s
    ensures c in s ==> r == s[..IndexOf(s, c)] + s[IndexOf(s, c) + 1..]
  {
    if c in s then s[..IndexOf(s, c)] + s[IndexOf(s, c) + 1..] else s
  }

  const InstagramBase: string := "https://instagram.com/"

  const FacebookBase: string := "https://facebook.com/"

  /** The Instagram profile link: the base address followed by the handle without its first `@`. */
  function InstagramUrl(handle: string): (r: string)
    ensures r == InstagramBase + RemoveFirst(handle, '@')
    ensures |r| == |InstagramBase| + |handle| - (if '@' in handle then 1 else 0)
    ensures r[..|InstagramBase|] == InstagramBase
    ensures '@' !in handle ==> r[|InstagramBase|..] == handle
    ensures multiset(r[|InstagramBase|..]) == multiset(handle) - multiset{'@'}
  {
    RemoveFirstCounts(handle, '@');
    var r := InstagramBase + RemoveFirst(handle, '@');
    assert r[|InstagramBase|..] == RemoveFirst(handle, '@');
    r
  }

  /** Removing the first `c` shortens the text by one exactly when it holds a `c`, and takes one `c` out. */
  lemma RemoveFirstCounts(s: string, c: char)
    ensures |RemoveFirst(s, c)| == |s| - (if c in s then 1 else 0)
    ensures multiset(RemoveFirst(s, c)) == multiset(s) - multiset{c}
  {
    if c in s {
      var i := IndexOf(s, c);
      assert s == s[..i] + [s[i]] + s[i + 1..];
    } else {
      assert multiset(s)[c] == 0;
    }
  }

  /** The Facebook profile link: the base address followed by the handle as entered. */
  function FacebookUrl(handle: string): (r: string)
    ensures |r| == |FacebookBase| + |handle|
    ensures r[..|FacebookBase|] == FacebookBase && r[|FacebookBase|..] == handle
  {
    FacebookBase + handle
  }

  /** A link is shown only for a handle that is present and non-empty. */
  function InstagramLink(c: Client): (r: Option<string>)
    ensures r.Some? <==> c.instagram.Some? && c.instagram.value != ""
    ensures r.Some? ==> r.value == InstagramUrl(c.instagram.value)
  {
    if c.instagram.Some? && c.instagram.value != "" then Some(InstagramUrl(c.instagram.value)) else None
  }

  function FacebookLink(c: Client): (r: Option<string>)
    ensures r.Some? <==> c.facebook.Some? && c.facebook.value != ""
    ensures r.Some? ==> r.value == FacebookUrl(c.facebook.value)
  {
    if c.facebook.Some? && c.facebook.value != "" then Some(FacebookUrl(c.facebook.value)) else None
  }

  /** Only the first `@` goes: `@@shop` links to `https://instagram.com/@shop`. */
  lemma OnlyFirstAtRemoved()
    ensures InstagramUrl("@@shop") == "https://instagram.com/@shop"
  {
    var h := "@@shop";
    assert h[0] == '@';
    assert IndexOf(h, '@') == 0;
    assert h[1..] == "@shop";
    assert RemoveFirst(h, '@') == "@shop";
    assert InstagramBase + "@shop" == "https://instagram.com/@shop";
  }
}
