/**
 The prototype of DesignPatterns/codings/creational/prototype/prototype.py.
 Objects live in an explicit heap addressed by index, so that aliasing and
 freshness can be stated: a `Person` refers to its address list by index and
 the list refers to `Address` objects by index. `clone` is `copy.deepcopy`:
 a new person, a new list and one new copy of each distinct address, the
 memo of deepcopy keeping an address that is listed twice shared in the copy.
 */
module Prototype {

  datatype Obj =
    | PersonObj(firstname: string, lastname: string, addresses: nat)
    | ListObj(items: seq<nat>)
    | AddressObj(street: string, number: string)

  type Heap = seq<Obj>

  /** The references of one object point into `h`: a person's to a list,
      a list's to addresses. */
  predicate ObjOk(h: Heap, x: Obj) {
    match x
    case PersonObj(_, _, l) => l < |h| && h[l].ListObj?
    case ListObj(items) => Addresses(h, items)
    case AddressObj(_, _) => true
  }

  /** Every index of `items` names an address of `h`. */
  predicate Addresses(h: Heap, items: seq<nat>) {
    forall j :: 0 <= j < |items| ==> items[j] < |h| && h[items[j]].AddressObj?
  }

  predicate Valid(h: Heap) {
    forall o :: 0 <= o < |h| ==> ObjOk(h, h[o])
  }

  predicate IsPerson(h: Heap, p: nat) {
    Valid(h) && p < |h| && h[p].PersonObj?
  }

  predicate IsAddress(h: Heap, a: nat) {
    a < |h| && h[a].AddressObj?
  }

  /** Allocating more objects keeps old references valid. */
  lemma ObjOkGrows(h: Heap, h': Heap, x: Obj)
    requires h <= h' && ObjOk(h, x)
    ensures ObjOk(h', x)
  {
    if x.ListObj? {
      forall j | 0 <= j < |x.items| ensures h'[x.items[j]].AddressObj? {
        assert h'[x.items[j]] == h[x.items[j]];
      }
    }
  }

  /** Appending objects whose references are valid keeps the heap valid. */
  lemma ValidAppend(h: Heap, extra: seq<Obj>)
    requires Valid(h)
    requires forall i :: 0 <= i < |extra| ==> ObjOk(h + extra, extra[i])
    ensures Valid(h + extra)
  {
    var h' := h + extra;
    forall o | 0 <= o < |h'| ensures ObjOk(h', h'[o]) {
      if o < |h| {
        ObjOkGrows(h, h', h[o]);
      } else {
        assert h'[o] == extra[o - |h|];
      }
    }
  }

  /** The indices of the addresses of person `p`. */
  function ItemsOf(h: Heap, p: nat): (items: seq<nat>)
    requires IsPerson(h, p)
    ensures Addresses(h, items)
  {
    assert ObjOk(h, h[p]);
    assert ObjOk(h, h[h[p].addresses]);
    h[h[p].addresses].items
  }

  /** The addresses as values, (street, number) each, in list order. */
  function AddressValues(h: Heap, items: seq<nat>): (vs: seq<(string, string)>)
    requires Addresses(h, items)
    ensures |vs| == |items|
    ensures forall j :: 0 <= j < |items| ==> vs[j] == (h[items[j]].street, h[items[j]].number)
  {
    if items == [] then []
    else
      [(h[items[0]].street, h[items[0]].number)] + AddressValues(h, items[1..])
  }

  /** What `print(person)` shows: the names and the address values. */
  function View(h: Heap, p: nat): (string, string, seq<(string, string)>)
    requires IsPerson(h, p)
  {
    (h[p].firstname, h[p].lastname, AddressValues(h, ItemsOf(h, p)))
  }

  /** `Person(firstname, lastname)`: allocates the person, then, in `__init__`, its empty list. */
  function NewPerson(h: Heap, firstname: string, lastname: string): (r: (Heap, nat))
    requires Valid(h)
    ensures |r.0| == |h| + 2 && r.0[..|h|] == h
    ensures IsPerson(r.0, r.1) && r.1 == |h|
    ensures View(r.0, r.1) == (firstname, lastname, [])
  {
    var extra := [PersonObj(firstname, lastname, |h| + 1), ListObj([])];
    var h' := h + extra;
    assert ObjOk(h', extra[0]) && ObjOk(h', extra[1]);
    ValidAppend(h, extra);
    (h', |h|)
  }

  /** `Address(street, number)` */
  function NewAddress(h: Heap, street: string, number: string): (r: (Heap, nat))
    requires Valid(h)
    ensures |r.0| == |h| + 1 && r.0[..|h|] == h
    ensures Valid(r.0) && r.1 == |h|
    ensures r.0[r.1] == AddressObj(street, number)
  {
    var h' := h + [AddressObj(street, number)];
    ValidAppend(h, [AddressObj(street, number)]);
    (h', |h|)
  }

  /** `add_address`: appends to the person's list object in place. */
  function AddAddress(h: Heap, p: nat, a: nat): (h': Heap)
    requires IsPerson(h, p) && IsAddress(h, a)
    ensures IsPerson(h', p) && |h'| == |h|
    ensures h'[p] == h[p]
    ensures ItemsOf(h', p) == ItemsOf(h, p) + [a]
    ensures forall o :: 0 <= o < |h| && o != h[p].addresses ==> h'[o] == h[o]
  {
    var l := h[p].addresses;
    var h' := h[l := ListObj(ItemsOf(h, p) + [a])];
    assert Valid(h') by {
      forall o | 0 <= o < |h'| ensures ObjOk(h', h'[o]) {
        assert ObjOk(h, h[o]);
        if h'[o].ListObj? {
          forall j | 0 <= j < |h'[o].items| ensures h'[h'[o].items[j]].AddressObj? {
            assert h[h'[o].items[j]].AddressObj?;
          }
        }
      }
    }
    h'
  }

  /** `person.firstname = name` */
  function SetFirstname(h: Heap, p: nat, name: string): (h': Heap)
    requires IsPerson(h, p)
    ensures IsPerson(h', p) && |h'| == |h|
    ensures h'[p] == h[p].(firstname := name)
    ensures forall o :: 0 <= o < |h| && o != p ==> h'[o] == h[o]
  {
    h[p := h[p].(firstname := name)]
  }

  /** The memo of deepcopy for addresses: each copied original is mapped to
      the index of its copy, the copies being `made` from index `base` on,
      distinct originals having distinct copies. */
  predicate MemoOk(h: Heap, base: nat, memo: map<nat, nat>, made: seq<Obj>) {
    && (forall k :: k in memo ==> IsAddress(h, k) && base <= memo[k] < base + |made| && made[memo[k] - base] == h[k])
    && (forall k1, k2 :: k1 in memo && k2 in memo && k1 != k2 ==> memo[k1] != memo[k2])
    && (forall m :: 0 <= m < |made| ==> made[m].AddressObj?)
  }

  /** Deep-copies the addresses `items`, left to right, reusing the copy of an
      address already in `memo`. Returns all copies made so far, the index
      of the copy of each item, and the extended memo. */
  function CopyAddresses(h: Heap, base: nat, items: seq<nat>, memo: map<nat, nat>, made: seq<Obj>)
    : (r: (seq<Obj>, seq<nat>, map<nat, nat>))
    requires Addresses(h, items)
    ensures |r.1| == |items|
    decreases |items|
  {
    if items == [] then (made, [], memo)
    else
      var a := items[0];
      if a in memo then
        var rest := CopyAddresses(h, base, items[1..], memo, made);
        (rest.0, [memo[a]] + rest.1, rest.2)
      else
        var rest := CopyAddresses(h, base, items[1..], memo[a := base + |made|], made + [h[a]]);
        (rest.0, [base + |made|] + rest.1, rest.2)
  }

  /** Copying keeps the memo consistent, only adds copies, and never
      forgets an entry. */
  lemma {:induction false} CopyAddressesMemo(h: Heap, base: nat, items: seq<nat>, memo: map<nat, nat>, made: seq<Obj>)
    requires Addresses(h, items) && MemoOk(h, base, memo, made)
    ensures var r := CopyAddresses(h, base, items, memo, made);
      && MemoOk(h, base, r.2, r.0)
      && made <= r.0
      && (forall k :: k in memo ==> k in r.2 && r.2[k] == memo[k])
    decreases |items|
  {
    if items != [] {
      var a := items[0];
      if a in memo {
        CopyAddressesMemo(h, base, items[1..], memo, made);
      } else {
        MemoExtend(h, base, memo, made, a);
        CopyAddressesMemo(h, base, items[1..], memo[a := base + |made|], made + [h[a]]);
      }
    }
  }

  /** Each item's copy is the one the final memo records for it. */
  lemma {:induction false} CopyAddressesItems(h: Heap, base: nat, items: seq<nat>, memo: map<nat, nat>, made: seq<Obj>)
    requires Addresses(h, items) && MemoOk(h, base, memo, made)
    ensures var r := CopyAddresses(h, base, items, memo, made);
      forall j :: 0 <= j < |items| ==> items[j] in r.2 && r.1[j] == r.2[items[j]]
    decreases |items|
  {
    if items != [] {
      var a := items[0];
      var r := CopyAddresses(h, base, items, memo, made);
      if a in memo {
        CopyAddressesItems(h, base, items[1..], memo, made);
        CopyAddressesMemo(h, base, items[1..], memo, made);
      } else {
        MemoExtend(h, base, memo, made, a);
        CopyAddressesItems(h, base, items[1..], memo[a := base + |made|], made + [h[a]]);
        CopyAddressesMemo(h, base, items[1..], memo[a := base + |made|], made + [h[a]]);
      }
      forall j | 0 <= j < |items| ensures items[j] in r.2 && r.1[j] == r.2[items[j]] {
        if j > 0 {
          assert items[j] == items[1..][j - 1];
        }
      }
    }
  }

  /** A copy started with an empty memo: only addresses are made, each item
      gets a copy of itself among them, and two items share a copy exactly
      when they are the same original. */
  lemma CopyFromEmpty(h: Heap, base: nat, items: seq<nat>)
    requires Addresses(h, items)
    ensures var r := CopyAddresses(h, base, items, map[], []);
      && (forall m :: 0 <= m < |r.0| ==> r.0[m].AddressObj?)
      && (forall j :: 0 <= j < |items| ==>
            base <= r.1[j] < base + |r.0| && r.0[r.1[j] - base] == h[items[j]])
      && (forall i, j :: 0 <= i < |items| && 0 <= j < |items| ==>
            (r.1[i] == r.1[j] <==> items[i] == items[j]))
  {
    var r := CopyAddresses(h, base, items, map[], []);
    CopyAddressesMemo(h, base, items, map[], []);
    CopyAddressesItems(h, base, items, map[], []);
    forall i, j | 0 <= i < |items| && 0 <= j < |items|
      ensures r.1[i] == r.1[j] <==> items[i] == items[j]
    {
      assert r.1[i] == r.2[items[i]] && r.1[j] == r.2[items[j]];
    }
  }

  /** Copying one more address, not yet in the memo, to the next free index. */
  lemma MemoExtend(h: Heap, base: nat, memo: map<nat, nat>, made: seq<Obj>, a: nat)
    requires MemoOk(h, base, memo, made) && IsAddress(h, a) && a !in memo
    ensures MemoOk(h, base, memo[a := base + |made|], made + [h[a]])
  {
    var memo' := memo[a := base + |made|];
    var made' := made + [h[a]];
    forall k | k in memo'
      ensures IsAddress(h, k) && base <= memo'[k] < base + |made'| && made'[memo'[k] - base] == h[k]
    {
      if k != a {
        assert made'[memo[k] - base] == made[memo[k] - base];
      }
    }
  }

  /** `clone()`, that is `deepcopy(person)`: the person, then its list, then
      the address copies, all allocated after the existing heap. */
  function Clone(h: Heap, p: nat): (r: (Heap, nat))
    requires IsPerson(h, p)
    ensures |r.0| >= |h| + 2 && r.0[..|h|] == h
    ensures IsPerson(r.0, r.1) && r.1 == |h|
  {
    var items := ItemsOf(h, p);
    var base := |h| + 2;
    var copy := CopyAddresses(h, base, items, map[], []);
    CopyFromEmpty(h, base, items);
    var h' := h + [PersonObj(h[p].firstname, h[p].lastname, |h| + 1), ListObj(copy.1)] + copy.0;
    var extra := [PersonObj(h[p].firstname, h[p].lastname, |h| + 1), ListObj(copy.1)] + copy.0;
    forall i | 0 <= i < |extra| ensures ObjOk(h + extra, extra[i]) {
      if i == 1 {
        forall j | 0 <= j < |copy.1| ensures (h + extra)[copy.1[j]].AddressObj? {
          assert (h + extra)[copy.1[j]] == copy.0[copy.1[j] - base];
        }
      } else if i >= 2 {
        assert extra[i] == copy.0[i - 2];
      }
    }
    ValidAppend(h, extra);
    assert h' == h + extra;
    (h', |h|)
  }

  /** Two heaps that agree on the objects `items` show the same address values. */
  lemma SameAddressValues(h: Heap, h': Heap, items: seq<nat>)
    requires Addresses(h, items)
    requires forall j :: 0 <= j < |items| ==> items[j] < |h'| && h'[items[j]] == h[items[j]]
    ensures Addresses(h', items)
    ensures AddressValues(h', items) == AddressValues(h, items)
  {
  }

  /** The list of the clone holds the copies made by deepcopy's memo. */
  lemma CloneItems(h: Heap, p: nat)
    requires IsPerson(h, p)
    ensures var (h', q) := Clone(h, p);
      var copy := CopyAddresses(h, |h| + 2, ItemsOf(h, p), map[], []);
      && h'[q] == PersonObj(h[p].firstname, h[p].lastname, |h| + 1)
      && ItemsOf(h', q) == copy.1
      && forall j :: 0 <= j < |copy.1| ==> |h| + 2 <= copy.1[j] < |h'| && h'[copy.1[j]] == h[ItemsOf(h, p)[j]]
  {
    var (h', q) := Clone(h, p);
    var items := ItemsOf(h, p);
    var base := |h| + 2;
    var copy := CopyAddresses(h, base, items, map[], []);
    CopyFromEmpty(h, base, items);
    assert h' == h + [PersonObj(h[p].firstname, h[p].lastname, |h| + 1), ListObj(copy.1)] + copy.0;
    forall j | 0 <= j < |copy.1|
      ensures |h| + 2 <= copy.1[j] < |h'| && h'[copy.1[j]] == h[items[j]]
    {
      assert h'[copy.1[j]] == copy.0[copy.1[j] - base];
    }
  }

  /** The clone is a new person whose list and addresses are all new objects,
      nothing shared with the heap it was copied from, and whose fields equal
      the original's: the same names and the same address values. */
  lemma CloneIsDeepCopy(h: Heap, p: nat)
    requires IsPerson(h, p)
    ensures var (h', q) := Clone(h, p);
      && q >= |h| && h'[q].addresses >= |h|
      && (forall j :: 0 <= j < |ItemsOf(h', q)| ==> ItemsOf(h', q)[j] >= |h|)
      && View(h', q) == View(h, p)
  {
    var (h', q) := Clone(h, p);
    CloneItems(h, p);
    var items := ItemsOf(h, p);
    var copy := CopyAddresses(h, |h| + 2, items, map[], []);
    var a := AddressValues(h', copy.1);
    var b := AddressValues(h, items);
    forall j | 0 <= j < |items| ensures a[j] == b[j] {
      assert h'[copy.1[j]] == h[items[j]];
    }
    assert a == b;
  }

  /** deepcopy's memo: two positions of the cloned list hold the same object
      exactly when the original list holds the same object there. */
  lemma ClonePreservesAliasing(h: Heap, p: nat, i: nat, j: nat)
    requires IsPerson(h, p) && i < |ItemsOf(h, p)| && j < |ItemsOf(h, p)|
    ensures var (h', q) := Clone(h, p);
      ItemsOf(h', q)[i] == ItemsOf(h', q)[j] <==> ItemsOf(h, p)[i] == ItemsOf(h, p)[j]
  {
    var (h', q) := Clone(h, p);
    var copy := CopyAddresses(h, |h| + 2, ItemsOf(h, p), map[], []);
    CloneItems(h, p);
    CopyFromEmpty(h, |h| + 2, ItemsOf(h, p));
    assert ItemsOf(h', q) == copy.1;
  }

  /** Changing the clone afterwards leaves the original as it was: its
      firstname, and its address list, even when the clone gets a new address. */
  lemma CloneIsIndependent(h: Heap, p: nat, name: string, street: string, number: string)
    requires IsPerson(h, p)
    ensures var (h1, q) := Clone(h, p);
      && SetFirstname(h1, q, name)[p] == h[p]
      && View(SetFirstname(h1, q, name), p) == View(h, p)
      && var (h2, a) := NewAddress(h1, street, number);
         View(AddAddress(h2, q, a), p) == View(h, p)
  {
    var (h1, q) := Clone(h, p);
    CloneIsDeepCopy(h, p);
    var items := ItemsOf(h, p);
    UnchangedView(h, SetFirstname(h1, q, name), p);
    var (h2, a) := NewAddress(h1, street, number);
    assert h2[..|h|] == h;
    UnchangedView(h, AddAddress(h2, q, a), p);
  }

  /** A person's view depends only on the objects allocated before it was
      observed: a heap that keeps those unchanged shows the same view. */
  lemma UnchangedView(h: Heap, h': Heap, p: nat)
    requires IsPerson(h, p) && Valid(h') && |h| <= |h'| && h'[..|h|] == h
    ensures IsPerson(h', p) && View(h', p) == View(h, p)
  {
    assert h'[p] == h[p];
    assert h'[h[p].addresses] == h[h[p].addresses];
    var items := ItemsOf(h, p);
    assert ItemsOf(h', p) == items;
    forall j | 0 <= j < |items| ensures items[j] < |h'| && h'[items[j]] == h[items[j]] {
      assert items[j] < |h|;
      assert h'[..|h|][items[j]] == h'[items[j]];
    }
    SameAddressValues(h, h', items);
  }

  /** `add_address` appends at the end and keeps the names. */
  lemma AddAddressAppends(h: Heap, p: nat, a: nat)
    requires IsPerson(h, p) && IsAddress(h, a)
    ensures var v := View(AddAddress(h, p, a), p);
      v.0 == h[p].firstname && v.1 == h[p].lastname
      && v.2 == View(h, p).2 + [(h[a].street, h[a].number)]
  {
    var h' := AddAddress(h, p, a);
    var old_items := ItemsOf(h, p);
    forall j | 0 <= j < |old_items| ensures h'[old_items[j]] == h[old_items[j]] {
      assert old_items[j] != h[p].addresses;
    }
  }

  /** Renaming a person changes only the first name of its view. */
  lemma SetFirstnameView(h: Heap, p: nat, name: string)
    requires IsPerson(h, p)
    ensures View(SetFirstname(h, p, name), p) == (name, h[p].lastname, View(h, p).2)
  {
    var h' := SetFirstname(h, p, name);
    var items := ItemsOf(h, p);
    assert ItemsOf(h', p) == items;
    forall j | 0 <= j < |items| ensures items[j] < |h'| && h'[items[j]] == h[items[j]] {
      assert h[items[j]].AddressObj?;
    }
    SameAddressValues(h, h', items);
  }

  /** The driver's steps for any names and address: the person built, given
      one address and cloned, and the clone renamed. */
  lemma Scenario(first: string, last: string, street: string, number: string, rename: string)
    ensures var (h1, joao) := NewPerson([], first, last);
      var (h2, endereco) := NewAddress(h1, street, number);
      var h3 := AddAddress(h2, joao, endereco);
      var (h4, esposa) := Clone(h3, joao);
      var h5 := SetFirstname(h4, esposa, rename);
      && View(h5, joao) == (first, last, [(street, number)])
      && View(h5, esposa) == (rename, last, [(street, number)])
  {
    var (h1, joao) := NewPerson([], first, last);
    var (h2, endereco) := NewAddress(h1, street, number);
    UnchangedView(h1, h2, joao);
    var h3 := AddAddress(h2, joao, endereco);
    AddAddressAppends(h2, joao, endereco);
    assert View(h2, joao).2 == [];
    assert h2[endereco] == AddressObj(street, number);
    assert [] + [(street, number)] == [(street, number)];
    assert View(h3, joao) == (first, last, [(street, number)]);
    var (h4, esposa) := Clone(h3, joao);
    CloneIsDeepCopy(h3, joao);
    CloneIsIndependent(h3, joao, rename, "", "");
    SetFirstnameView(h4, esposa, rename);
  }

  /** The driver: João gets "Rua X", 1444; his clone is renamed "Ninguém"
      and keeps his last name and address, while João keeps his name. */
  lemma Driver()
    ensures var (h1, joao) := NewPerson([], "João", "Justino");
      var (h2, endereco) := NewAddress(h1, "Rua X", "1444");
      var h3 := AddAddress(h2, joao, endereco);
      var (h4, esposa) := Clone(h3, joao);
      var h5 := SetFirstname(h4, esposa, "Ninguém");
      && View(h5, joao) == ("João", "Justino", [("Rua X", "1444")])
      && View(h5, esposa) == ("Ninguém", "Justino", [("Rua X", "1444")])
  {
    Scenario("João", "Justino", "Rua X", "1444", "Ninguém");
  }
}
