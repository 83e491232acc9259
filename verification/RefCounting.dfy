/**
 Who holds what: the arithmetic behind the reference counts of the OpenCL binding headers.

 A map lists the holders with the handle each of them holds.  Counts and owners are even when every handle has as
 many counts as it has owners: holders in the map, and counts owned by anybody else.
 */
module RefCounting {
  import opened Bindings

  /** The count that holding `h` stands for. */
  function One(h: Handle): multiset<Handle> {
    if h == 0 then multiset{} else multiset{h}
  }

  /** The counts that a list of handles stands for. */
  function All(s: seq<Handle>): multiset<Handle> {
    multiset(s)[0 := 0]
  }

  lemma AllFirst(s: seq<Handle>, i: nat)
    requires i < |s|
    ensures All(s[i..]) == One(s[i]) + All(s[i + 1..])
  {
    assert s[i..] == [s[i]] + s[i + 1..];
  }

  lemma AllLast(s: seq<Handle>, i: nat)
    requires i < |s|
    ensures All(s[..i + 1]) == All(s[..i]) + One(s[i])
  {
    assert s[..i + 1] == s[..i] + [s[i]];
  }

  lemma AllSplit(s: seq<Handle>, i: nat)
    requires i <= |s|
    ensures All(s) == All(s[..i]) + All(s[i..])
  {
    assert s == s[..i] + s[i..];
  }

  ghost function HoldersOf<W>(m: map<W, Handle>, h: Handle): set<W> {
    set w | w in m && m[w] == h
  }

  ghost function Held<W>(m: map<W, Handle>, h: Handle): nat {
    if h == 0 then 0 else |HoldersOf(m, h)|
  }

  /** What `w` holds, if it is a holder at all. */
  ghost function Has<W>(m: map<W, Handle>, w: W): Handle {
    if w in m then m[w] else 0
  }

  lemma HeldPut<W>(m: map<W, Handle>, w: W, v: Handle, h: Handle)
    ensures Held(m[w := v], h) + One(Has(m, w))[h] == Held(m, h) + One(v)[h]
  {
    if h != 0 {
      var before, after := HoldersOf(m, h), HoldersOf(m[w := v], h);
      assert after - {w} == before - {w};
      assert w in after <==> v == h;
      assert w in before <==> Has(m, w) == h;
      assert |after| == |after - {w}| + if w in after then 1 else 0;
      assert |before| == |before - {w}| + if w in before then 1 else 0;
    }
  }

  lemma HeldDrop<W>(m: map<W, Handle>, w: W, h: Handle)
    ensures Held(m - {w}, h) + One(Has(m, w))[h] == Held(m, h)
  {
    if h != 0 {
      var before := HoldersOf(m, h);
      assert HoldersOf(m - {w}, h) == before - {w};
      assert w in before <==> Has(m, w) == h;
      assert |before| == |before - {w}| + if w in before then 1 else 0;
    }
  }

  lemma HeldByOne<W>(m: map<W, Handle>, w: W)
    requires w in m && m[w] != 0
    ensures Held(m, m[w]) >= 1
  {
    assert w in HoldersOf(m, m[w]);
  }

  lemma HeldByTwo<W>(m: map<W, Handle>, w: W, v: W)
    requires w in m && v in m && w != v && m[w] == m[v] != 0
    ensures Held(m, m[w]) >= 2
  {
    var all := HoldersOf(m, m[w]);
    assert {w, v} <= all;
    assert |all - {w, v}| == |all| - 2;
  }

  lemma HeldByNobody<W>(m: map<W, Handle>, h: Handle)
    ensures Held(m, h) == 0 <==> h == 0 || forall w | w in m :: m[w] != h
  {
    if h != 0 && HoldersOf(m, h) != {} {
      var w :| w in HoldersOf(m, h);
      assert w in m && m[w] == h;
    } else if h != 0 {
      forall w | w in m ensures m[w] != h {
        assert w !in HoldersOf(m, h);
      }
    }
  }

  /** Counts and owners balance, but for counts `owed` that holders hold already and nobody retained. */
  ghost predicate Even<W>(counts: multiset<Handle>, owed: multiset<Handle>, owned: multiset<Handle>, m: map<W, Handle>) {
    forall h: Handle {:trigger Held(m, h)} :: counts[h] + owed[h] == owned[h] + Held(m, h)
  }

  /** A holder changes what it holds, and counts, debts and other owners change to match. */
  lemma EvenPut<W>(counts: multiset<Handle>, owed: multiset<Handle>, owned: multiset<Handle>, m: map<W, Handle>, w: W, v: Handle,
                   counts': multiset<Handle>, owed': multiset<Handle>, owned': multiset<Handle>)
    requires Even(counts, owed, owned, m)
    requires counts' + owed' + owned + One(Has(m, w)) == counts + owed + owned' + One(v)
    ensures Even(counts', owed', owned', m[w := v])
  {
    forall h: Handle ensures counts'[h] + owed'[h] == owned'[h] + Held(m[w := v], h) {
      HeldPut(m, w, v, h);
      assert (counts' + owed' + owned + One(Has(m, w)))[h] == (counts + owed + owned' + One(v))[h];
      assert counts[h] + owed[h] == owned[h] + Held(m, h);
    }
  }

  /** One holder gives up its count and takes over another one, retained for it. */
  lemma EvenSwap<W>(counts: multiset<Handle>, owed: multiset<Handle>, owned: multiset<Handle>, m: map<W, Handle>, w: W, v: Handle)
    requires Even(counts, owed, owned, m) && One(Has(m, w)) <= counts
    ensures Even(counts - One(Has(m, w)) + One(v), owed, owned, m[w := v])
  {
    EvenPut(counts, owed, owned, m, w, v, counts - One(Has(m, w)) + One(v), owed, owned);
  }

  /** What one holder holds passes to another one that holds nothing. */
  lemma EvenMove<W>(counts: multiset<Handle>, owed: multiset<Handle>, owned: multiset<Handle>, m: map<W, Handle>, from: W, to: W)
    requires Even(counts, owed, owned, m) && from in m && from != to && Has(m, to) == 0
    ensures Even(counts, owed, owned, m[to := m[from]][from := 0])
  {
    var more := m[to := m[from]];
    EvenPut(counts, owed, owned, m, to, m[from], counts + One(m[from]), owed, owned);
    EvenPut(counts + One(m[from]), owed, owned, more, from, 0, counts, owed, owned);
  }

  /** A holder that holds nothing any more goes. */
  lemma EvenDrop<W>(counts: multiset<Handle>, owed: multiset<Handle>, owned: multiset<Handle>, m: map<W, Handle>, w: W)
    requires Even(counts, owed, owned, m) && One(Has(m, w)) <= counts
    ensures Even(counts - One(Has(m, w)), owed, owned, m - {w})
  {
    forall h: Handle ensures (counts - One(Has(m, w)))[h] + owed[h] == owned[h] + Held(m - {w}, h) {
      HeldDrop(m, w, h);
    }
  }

  /** Whatever is held has a count, and what two hold has two. */
  lemma EvenAlive<W>(counts: multiset<Handle>, owned: multiset<Handle>, m: map<W, Handle>, w: W, v: W)
    requires Even(counts, multiset{}, owned, m)
    ensures One(Has(m, w)) <= counts
    ensures w != v ==> One(Has(m, w)) + One(Has(m, v)) <= counts
  {
    var a, b := Has(m, w), Has(m, v);
    assert counts[a] + multiset{}[a] == owned[a] + Held(m, a);
    assert counts[b] + multiset{}[b] == owned[b] + Held(m, b);
    if a != 0 {
      HeldByOne(m, w);
    }
    if b != 0 {
      HeldByOne(m, v);
      if a == b && w != v {
        HeldByTwo(m, w, v);
      }
    }
  }

  /** What anybody else owns has a count. */
  lemma EvenOwned<W>(counts: multiset<Handle>, owned: multiset<Handle>, m: map<W, Handle>, h: Handle)
    requires Even(counts, multiset{}, owned, m) && h in owned
    ensures h in counts
  {
    assert counts[h] + multiset{}[h] == owned[h] + Held(m, h);
  }

  /** Only one set of other owners makes counts and holders even. */
  lemma OwnersAreDetermined<W>(counts: multiset<Handle>, owed: multiset<Handle>, owned: multiset<Handle>, m: map<W, Handle>,
                               owned': multiset<Handle>)
    requires Even(counts, owed, owned, m)
    ensures Even(counts, multiset{}, owned', m) <==> owned' + owed == owned
  {
    if Even(counts, multiset{}, owned', m) {
      forall h: Handle ensures (owned' + owed)[h] == owned[h] {
        assert counts[h] + owed[h] == owned[h] + Held(m, h);
        assert counts[h] + multiset{}[h] == owned'[h] + Held(m, h);
      }
    }
    if owned' + owed == owned {
      forall h: Handle ensures counts[h] + multiset{}[h] == owned'[h] + Held(m, h) {
        assert counts[h] + owed[h] == (owned' + owed)[h] + Held(m, h);
      }
    }
  }

  /** A count taken over without being retained balances exactly if another owner gives up its own. */
  lemma BalancedIffGiven<W>(counts: multiset<Handle>, c: Handle, owned: multiset<Handle>, m: map<W, Handle>, given: multiset<Handle>)
    requires Even(counts, One(c), owned, m) && given <= owned
    ensures Even(counts, multiset{}, owned - given, m) <==> given == One(c)
  {
    OwnersAreDetermined(counts, One(c), owned, m, owned - given);
    assert owned - given + given == owned;
    assert owned - given + One(c) == owned <==> given == One(c);
  }

  // ---------------------------------------------------------------------------------------------
  // Lists of holders
  // ---------------------------------------------------------------------------------------------

  ghost predicate Distinct<W>(ws: seq<W>) {
    forall i, j | 0 <= i < j < |ws| :: ws[i] != ws[j]
  }

  /** The listed holders exist, each of them listed once. */
  ghost predicate Lists<W>(ws: seq<W>, m: map<W, Handle>) {
    Distinct(ws) && forall i | 0 <= i < |ws| :: ws[i] in m
  }

  ghost function Members<W>(ws: seq<W>): set<W> {
    set w | w in ws
  }

  lemma Without<W>(ws: seq<W>, i: nat)
    requires i < |ws| && Distinct(ws)
    ensures var rest := ws[..i] + ws[i + 1..]; Distinct(rest) && Members(rest) == Members(ws) - {ws[i]}
  {
    assert ws == ws[..i] + [ws[i]] + ws[i + 1..];
  }
}
