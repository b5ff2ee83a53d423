/** The catalogue set-up that runs once when the script loads: laptops are
    de-duplicated by a lower-cased `name-processor-ram` key (the first one
    seen wins) and each unique laptop lands in exactly one of the gaming,
    business and student folders; plus the location filter over laptops. */
module Catalogue {
  import opened Collections

  /** A laptop record. Missing text fields are "" (the source's `x || ''`);
      `price` is the number already parsed out of the price text (0 when
      none); `location` is the one assigned before categorising. */
  datatype Laptop = Laptop(name: string, processor: string, ram: string, graphics: string,
                           price: real, location: string)

  /** Entries without a name are skipped. */
  predicate Named(l: Laptop) {
    l.name != ""
  }

  /** The de-duplication key `${name}-${processor}-${ram}`, lower-cased. */
  function Key(l: Laptop): (k: string)
    ensures k == Lower(l.name) + "-" + Lower(l.processor) + "-" + Lower(l.ram)
    ensures |k| == |l.name| + |l.processor| + |l.ram| + 2
  {
    LowerConcat(l.name + "-" + l.processor, "-" + l.ram);
    LowerConcat(l.name, "-" + l.processor);
    LowerConcat("-", l.processor);
    LowerConcat("-", l.ram);
    Lower(l.name + "-" + l.processor + "-" + l.ram)
  }

  datatype Category = Gaming | Business | Student

  const StudentPriceLimit: real := 300.0

  /** The folder a laptop goes to. `dedicated` and `integrated` stand for the
      two graphics-name patterns and are applied to the lower-cased graphics
      text. Whatever `integrated` says, the price test alone decides between
      student and business. */
  function CategoryOf(l: Laptop, dedicated: string -> bool, integrated: string -> bool): (c: Category)
    ensures c == if dedicated(Lower(l.graphics)) then Gaming
                 else if 0.0 < l.price <= StudentPriceLimit then Student
                 else Business
  {
    var graphics := Lower(l.graphics);
    if dedicated(graphics) then Gaming
    else if integrated(graphics) then
      (if l.price > 0.0 && l.price <= 300.0 then Student else Business)
    else
      (if l.price > 0.0 && l.price <= 300.0 then Student else Business)
  }

  /** The `uniqueLaptops` map and the three folder lists. */
  datatype Buckets = Buckets(unique: map<string, Laptop>, gaming: seq<Laptop>,
                             business: seq<Laptop>, student: seq<Laptop>)

  const NoBuckets := Buckets(map[], [], [], [])

  /** The body of the `forEach` callback for one laptop. */
  function Visit(b: Buckets, l: Laptop, dedicated: string -> bool, integrated: string -> bool): (r: Buckets)
    ensures !Named(l) || Key(l) in b.unique ==> r == b
    ensures Named(l) && Key(l) !in b.unique ==>
              r.unique == b.unique[Key(l) := l] &&
              forall c :: Bucket(r, c) == if c == CategoryOf(l, dedicated, integrated) then Bucket(b, c) + [l] else Bucket(b, c)
  {
    if !Named(l) || Key(l) in b.unique then b
    else
      var u := b.unique[Key(l) := l];
      match CategoryOf(l, dedicated, integrated)
      case Gaming => Buckets(u, b.gaming + [l], b.business, b.student)
      case Business => Buckets(u, b.gaming, b.business + [l], b.student)
      case Student => Buckets(u, b.gaming, b.business, b.student + [l])
  }

  /** The state after the `forEach` has visited every laptop of `ls` in order. */
  function Categorized(ls: seq<Laptop>, dedicated: string -> bool, integrated: string -> bool): Buckets
    decreases |ls|
  {
    if ls == [] then NoBuckets
    else Visit(Categorized(ls[..|ls| - 1], dedicated, integrated), ls[|ls| - 1], dedicated, integrated)
  }

  /** The categorising pass, pushing into the lists as the source does. */
  method Categorize(laptops: seq<Laptop>, dedicated: string -> bool, integrated: string -> bool)
    returns (unique: map<string, Laptop>, gaming: seq<Laptop>, business: seq<Laptop>, student: seq<Laptop>)
    ensures Buckets(unique, gaming, business, student) == Categorized(laptops, dedicated, integrated)
  {
    unique, gaming, business, student := map[], [], [], [];
    for i := 0 to |laptops|
      invariant Buckets(unique, gaming, business, student) == Categorized(laptops[..i], dedicated, integrated)
    {
      assert laptops[..i + 1][..i] == laptops[..i];
      var laptop := laptops[i];
      if laptop.name == "" {
        continue;
      }
      var uniqueKey := Lower(laptop.name + "-" + laptop.processor + "-" + laptop.ram);
      if uniqueKey !in unique {
        unique := unique[uniqueKey := laptop];
        var graphics := Lower(laptop.graphics);
        var price := laptop.price;
        if dedicated(graphics) {
          gaming := gaming + [laptop];
        } else if integrated(graphics) {
          if price > 0.0 && price <= 300.0 {
            student := student + [laptop];
          } else {
            business := business + [laptop];
          }
        } else {
          if price > 0.0 && price <= 300.0 {
            student := student + [laptop];
          } else {
            business := business + [laptop];
          }
        }
      }
    }
    assert laptops[..|laptops|] == laptops;
  }

  /** `ls[j]` is named and no earlier named laptop has its key. */
  ghost predicate FirstSeen(ls: seq<Laptop>, j: int)
    requires 0 <= j < |ls|
  {
    Named(ls[j]) && forall i :: 0 <= i < j && Named(ls[i]) ==> Key(ls[i]) != Key(ls[j])
  }

  /** The folder list of category `c`. */
  function Bucket(b: Buckets, c: Category): seq<Laptop> {
    match c
    case Gaming => b.gaming
    case Business => b.business
    case Student => b.student
  }

  /** Each stored laptop is named and is stored under its own key. */
  ghost predicate KeyedByOwnKey(u: map<string, Laptop>) {
    forall k :: k in u ==> Named(u[k]) && Key(u[k]) == k
  }

  /** The list of category `c` holds exactly the stored laptops of that category. */
  ghost predicate BucketHolds(b: Buckets, c: Category, dedicated: string -> bool, integrated: string -> bool) {
    forall x :: x in Bucket(b, c) <==> x in b.unique.Values && CategoryOf(x, dedicated, integrated) == c
  }

  /** The invariant of the pass: the three lists split the stored laptops
      by category, none listed twice. */
  ghost predicate Partitioned(b: Buckets, dedicated: string -> bool, integrated: string -> bool) {
    && KeyedByOwnKey(b.unique)
    && BucketHolds(b, Gaming, dedicated, integrated)
    && BucketHolds(b, Business, dedicated, integrated)
    && BucketHolds(b, Student, dedicated, integrated)
    && |b.gaming| + |b.business| + |b.student| == |b.unique|
  }

  /** Storing a value under a new key adds exactly that value. */
  lemma InsertNewKey<K, V>(m: map<K, V>, k: K, v: V)
    requires k !in m
    ensures m[k := v].Values == m.Values + {v}
    ensures |m[k := v]| == |m| + 1
  {
    var u := m[k := v];
    forall x | x in u.Values ensures x in m.Values + {v} {
      var k' :| k' in u && u[k'] == x;
      if k' != k {
        assert m[k'] == x;
      }
    }
    forall x | x in m.Values + {v} ensures x in u.Values {
      if x == v {
        assert u[k] == v;
      } else {
        var k' :| k' in m && m[k'] == x;
        assert u[k'] == x;
      }
    }
  }

  /** What visiting a named laptop with a new key does: store it under its
      key and append it to the list of its category. */
  lemma VisitNewKey(b: Buckets, l: Laptop, dedicated: string -> bool, integrated: string -> bool)
    requires Named(l) && Key(l) !in b.unique
    ensures var b' := Visit(b, l, dedicated, integrated);
            && b'.unique == b.unique[Key(l) := l]
            && forall c :: Bucket(b', c) == if CategoryOf(l, dedicated, integrated) == c
                                            then Bucket(b, c) + [l] else Bucket(b, c)
  {
  }

  /** A newly stored laptop joins the list of its own category only. */
  lemma VisitKeepsBucket(b: Buckets, l: Laptop, c: Category, dedicated: string -> bool, integrated: string -> bool)
    requires BucketHolds(b, c, dedicated, integrated)
    requires Named(l) && Key(l) !in b.unique
    ensures BucketHolds(Visit(b, l, dedicated, integrated), c, dedicated, integrated)
  {
    VisitNewKey(b, l, dedicated, integrated);
    InsertNewKey(b.unique, Key(l), l);
  }

  lemma VisitKeepsPartitioned(b: Buckets, l: Laptop, dedicated: string -> bool, integrated: string -> bool)
    requires Partitioned(b, dedicated, integrated)
    ensures Partitioned(Visit(b, l, dedicated, integrated), dedicated, integrated)
  {
    var b' := Visit(b, l, dedicated, integrated);
    if Named(l) && Key(l) !in b.unique {
      VisitNewKey(b, l, dedicated, integrated);
      InsertNewKey(b.unique, Key(l), l);
      assert KeyedByOwnKey(b'.unique);
      assert |Bucket(b', Gaming)| + |Bucket(b', Business)| + |Bucket(b', Student)| == |b'.unique|;
      VisitKeepsBucket(b, l, Gaming, dedicated, integrated);
      VisitKeepsBucket(b, l, Business, dedicated, integrated);
      VisitKeepsBucket(b, l, Student, dedicated, integrated);
    } else {
      assert b' == b;
    }
  }

  /** Every named laptop appears in exactly one folder list, the one its
      category names, together with all the other laptops that were stored
      only once each: the lists split the stored laptops between them. */
  lemma {:induction false} CategorizedPartitions(ls: seq<Laptop>, dedicated: string -> bool, integrated: string -> bool)
    ensures Partitioned(Categorized(ls, dedicated, integrated), dedicated, integrated)
    decreases |ls|
  {
    if ls != [] {
      CategorizedPartitions(ls[..|ls| - 1], dedicated, integrated);
      VisitKeepsPartitioned(Categorized(ls[..|ls| - 1], dedicated, integrated), ls[|ls| - 1], dedicated, integrated);
    }
  }

  /** Some named laptop of `ls` has key `k`. */
  ghost predicate HasNamedKey(ls: seq<Laptop>, k: string) {
    exists j :: 0 <= j < |ls| && Named(ls[j]) && Key(ls[j]) == k
  }

  lemma HasNamedKeySnoc(ls: seq<Laptop>, k: string)
    requires ls != []
    ensures HasNamedKey(ls, k) <==>
              HasNamedKey(ls[..|ls| - 1], k) || (Named(ls[|ls| - 1]) && Key(ls[|ls| - 1]) == k)
  {
    var init := ls[..|ls| - 1];
    if HasNamedKey(init, k) {
      var j :| 0 <= j < |init| && Named(init[j]) && Key(init[j]) == k;
      assert ls[j] == init[j];
    }
    if HasNamedKey(ls, k) {
      var j :| 0 <= j < |ls| && Named(ls[j]) && Key(ls[j]) == k;
      if j < |init| {
        assert init[j] == ls[j];
      }
    }
  }

  /** The stored keys are exactly the keys of the named laptops. */
  lemma {:induction false} CategorizedKeys(ls: seq<Laptop>, dedicated: string -> bool, integrated: string -> bool)
    ensures forall k :: k in Categorized(ls, dedicated, integrated).unique <==> HasNamedKey(ls, k)
    decreases |ls|
  {
    if ls != [] {
      CategorizedKeys(ls[..|ls| - 1], dedicated, integrated);
      forall k {
        HasNamedKeySnoc(ls, k);
      }
    }
  }

  /** Each stored key holds the first named laptop that has it. */
  lemma {:induction false} CategorizedKeepsFirst(ls: seq<Laptop>, dedicated: string -> bool, integrated: string -> bool)
    ensures var u := Categorized(ls, dedicated, integrated).unique;
            forall j :: 0 <= j < |ls| && FirstSeen(ls, j) ==> Key(ls[j]) in u && u[Key(ls[j])] == ls[j]
    decreases |ls|
  {
    if ls != [] {
      var n := |ls| - 1;
      var init := ls[..n];
      var l := ls[n];
      CategorizedKeepsFirst(init, dedicated, integrated);
      CategorizedKeys(init, dedicated, integrated);
      var u0 := Categorized(init, dedicated, integrated).unique;
      var u := Categorized(ls, dedicated, integrated).unique;
      assert u == if Named(l) && Key(l) !in u0 then u0[Key(l) := l] else u0;
      forall j | 0 <= j < |ls| && FirstSeen(ls, j) ensures Key(ls[j]) in u && u[Key(ls[j])] == ls[j] {
        if j < n {
          assert forall i :: 0 <= i <= j ==> init[i] == ls[i];
          assert FirstSeen(init, j);
        }
      }
    }
  }

  /** Nameless laptops, and laptops that differ from the first one seen
      with their key, are in no folder list. */
  lemma DroppedLaptops(ls: seq<Laptop>, dedicated: string -> bool, integrated: string -> bool, x: Laptop)
    requires !Named(x) || exists j :: 0 <= j < |ls| && FirstSeen(ls, j) && Key(ls[j]) == Key(x) && ls[j] != x
    ensures var b := Categorized(ls, dedicated, integrated);
            x !in b.gaming && x !in b.business && x !in b.student
  {
    CategorizedPartitions(ls, dedicated, integrated);
    CategorizedKeys(ls, dedicated, integrated);
    CategorizedKeepsFirst(ls, dedicated, integrated);
  }

  /** filterByLocation: "default" keeps every laptop; any other location
      keeps, in order, exactly the laptops with that location. */
  function FilterByLocation(laptops: seq<Laptop>, location: string): (r: seq<Laptop>)
    ensures location == "default" ==> r == laptops
    ensures location != "default" ==>
              IsSubsequence(r, laptops) && forall x :: x in r <==> x in laptops && x.location == location
    ensures location != "default" ==>
              forall x :: multiset(r)[x] == if x.location == location then multiset(laptops)[x] else 0
  {
    if location == "default" then laptops
    else Filter(laptops, (l: Laptop) => l.location == location)
  }
}
