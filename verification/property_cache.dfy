/** The in-memory cache of file-system properties of pool datasets
  (pkg/pool/operations/property.go). */
module PropertyCache {

  type Dataset = string
  type Property = string
  type Value = string

  /** Property values by dataset and property. */
  type Table = map<(Dataset, Property), Value>

  predicate SameAt(a: Table, b: Table, k: (Dataset, Property)) {
    (k in a <==> k in b) && (k in a && k in b ==> a[k] == b[k])
  }

  /** The tables differ at most in the desired properties of the dataset. */
  ghost predicate SameOutside(a: Table, b: Table, ds: Dataset, desired: map<Property, Value>) {
    forall k: (Dataset, Property) :: k.0 != ds || k.1 !in desired ==> SameAt(a, b, k)
  }

  /** The cache has the needed properties that ZFS has as desired. */
  ghost predicate KnowsEqual(before: Table, zfs: Table, cached: Table, ds: Dataset, desired: map<Property, Value>) {
    forall p :: p in Needed(before, ds, desired) && (ds, p) in zfs && zfs[(ds, p)] == desired[p] ==> (ds, p) in cached
  }

  predicate HasAll(t: Table, ds: Dataset, desired: map<Property, Value>) {
    forall p :: p in desired ==> (ds, p) in t && t[(ds, p)] == desired[p]
  }

  ghost predicate Agrees(a: Table, b: Table) {
    forall k :: k in a ==> k in b && a[k] == b[k]
  }

  /** The desired properties that the cache does not vouch for. */
  function Needed(cached: Table, ds: Dataset, desired: map<Property, Value>): set<Property> {
    set p | p in desired && !((ds, p) in cached && cached[(ds, p)] == desired[p])
  }

  predicate Readable(zfs: Table, ds: Dataset, needed: set<Property>, readable: set<Property>) {
    forall p :: p in needed ==> p in readable && (ds, p) in zfs
  }

  /** A property that has to be looked at is set otherwise. */
  predicate Differs(zfs: Table, ds: Dataset, desired: map<Property, Value>, needed: set<Property>) {
    exists p :: p in needed && p in desired && (ds, p) in zfs && zfs[(ds, p)] != desired[p]
  }

  lemma NothingNeeded(cached: Table, zfs: Table, ds: Dataset, desired: map<Property, Value>)
    ensures HasAll(cached, ds, desired) <==> Needed(cached, ds, desired) == {}
  {
    if Needed(cached, ds, desired) == {} {
      forall p | p in desired ensures (ds, p) in cached && cached[(ds, p)] == desired[p] {
        assert p !in Needed(cached, ds, desired);
      }
    }
  }

  lemma NothingToDo(zfs: Table, ds: Dataset, desired: map<Property, Value>, readable: set<Property>)
    ensures Readable(zfs, ds, {}, readable) && !Differs(zfs, ds, desired, {})
  {
  }

  /** The properties in `done` have been looked at. */
  ghost predicate Compared(cached: Table, zfs: Table, ds: Dataset, desired: map<Property, Value>, readable: set<Property>,
                           done: set<Property>, known: Table, unset: map<Property, Value>)
  {
    && Agrees(known, zfs) && (forall k :: k in cached ==> k in known && known[k] == cached[k])
    && (forall k :: k in known && k !in cached ==> k.0 == ds && k.1 in Needed(cached, ds, desired) && k.1 in done)
    && (forall p :: p in done && p in Needed(cached, ds, desired) ==> p in readable && (ds, p) in zfs)
    && (forall p :: p in unset <==> p in done && p in Needed(cached, ds, desired) && zfs[(ds, p)] != desired[p])
    && (forall p :: p in unset ==> p in desired && unset[p] == desired[p])
    && (forall p :: p in done && p in desired && p !in unset ==> (ds, p) in known && known[(ds, p)] == desired[p])
  }

  lemma NeededDesired(cached: Table, ds: Dataset, desired: map<Property, Value>)
    ensures Needed(cached, ds, desired) <= desired.Keys
  {
  }

  lemma Unreadable(zfs: Table, ds: Dataset, needed: set<Property>, readable: set<Property>, p: Property)
    requires p in needed && !(p in readable && (ds, p) in zfs)
    ensures !Readable(zfs, ds, needed, readable)
  {
  }

  lemma OneMore(needed: set<Property>, all: set<Property>, done: set<Property>, p: Property)
    requires p in all - done && done <= all
    ensures |needed * (done + {p})| == |needed * done| + if p in needed then 1 else 0
    ensures all - done - {p} == all - (done + {p}) && done + {p} <= all
  {
    assert needed * (done + {p}) == (needed * done) + if p in needed then {p} else {};
  }

  lemma AllDone(needed: set<Property>, all: set<Property>, done: set<Property>)
    requires all - done == {} && done <= all && needed <= all
    ensures done == all && needed * done == needed
  {
    forall p | p in all ensures p in done {
      assert p !in all - done;
    }
  }

  lemma NothingCompared(cached: Table, zfs: Table, ds: Dataset, desired: map<Property, Value>, readable: set<Property>)
    requires Agrees(cached, zfs)
    ensures Compared(cached, zfs, ds, desired, readable, {}, cached, map[])
  {
  }

  lemma CompareNext(cached: Table, zfs: Table, ds: Dataset, desired: map<Property, Value>, readable: set<Property>,
                    done: set<Property>, known: Table, unset: map<Property, Value>, p: Property)
    requires Compared(cached, zfs, ds, desired, readable, done, known, unset) && p in desired && p !in done
    ensures (ds, p) in known && known[(ds, p)] == desired[p] <==> p !in Needed(cached, ds, desired)
    ensures p !in Needed(cached, ds, desired) ==> Compared(cached, zfs, ds, desired, readable, done + {p}, known, unset)
  {
    hide Agrees;
    assert (ds, p) in known ==> (ds, p) in cached;
  }

  lemma CompareAgrees(cached: Table, zfs: Table, ds: Dataset, desired: map<Property, Value>, readable: set<Property>,
                      done: set<Property>, known: Table, unset: map<Property, Value>, p: Property)
    requires Compared(cached, zfs, ds, desired, readable, done, known, unset) && p in desired && p !in done
    requires p in Needed(cached, ds, desired) && p in readable && (ds, p) in zfs && zfs[(ds, p)] == desired[p]
    ensures Compared(cached, zfs, ds, desired, readable, done + {p}, known[(ds, p) := desired[p]], unset)
  {
    hide Needed;
    assert (ds, p) !in cached by { NeededIs(cached, zfs, ds, desired, known, p); }
  }

  lemma NeededIs(cached: Table, zfs: Table, ds: Dataset, desired: map<Property, Value>, known: Table, p: Property)
    requires Agrees(known, zfs) && (forall k :: k in cached ==> k in known && known[k] == cached[k])
    requires p in Needed(cached, ds, desired) && (ds, p) in zfs && zfs[(ds, p)] == desired[p]
    ensures (ds, p) !in cached
  {
  }

  lemma CompareDiffers(cached: Table, zfs: Table, ds: Dataset, desired: map<Property, Value>, readable: set<Property>,
                       done: set<Property>, known: Table, unset: map<Property, Value>, p: Property)
    requires Compared(cached, zfs, ds, desired, readable, done, known, unset) && p in desired && p !in done
    requires p in Needed(cached, ds, desired) && p in readable && (ds, p) in zfs && zfs[(ds, p)] != desired[p]
    ensures Compared(cached, zfs, ds, desired, readable, done + {p}, known, unset[p := desired[p]])
  {
    hide Needed, Agrees;
  }

  /** `known` is the cache with more of what ZFS has for the desired properties. */
  ghost predicate Learned(cached: Table, zfs: Table, ds: Dataset, desired: map<Property, Value>, known: Table) {
    && Agrees(known, zfs) && (forall k :: k in known && k !in cached ==> k.0 == ds && k.1 in desired)
    && (forall k :: k in cached ==> k in known && known[k] == cached[k])
  }

  /** `unset` are the desired properties that ZFS has otherwise; `known` has the others. */
  ghost predicate Split(cached: Table, zfs: Table, ds: Dataset, desired: map<Property, Value>, known: Table, unset: map<Property, Value>) {
    && (forall p :: p in unset <==> p in Needed(cached, ds, desired) && (ds, p) in zfs && zfs[(ds, p)] != desired[p])
    && (forall p :: p in unset ==> p in desired && unset[p] == desired[p])
    && (forall p :: p in desired && p !in unset ==> (ds, p) in known && known[(ds, p)] == desired[p])
  }

  lemma ComparedPart(cached: Table, zfs: Table, ds: Dataset, desired: map<Property, Value>, readable: set<Property>,
                     done: set<Property>, known: Table, unset: map<Property, Value>)
    requires Compared(cached, zfs, ds, desired, readable, done, known, unset)
    ensures Learned(cached, zfs, ds, desired, known)
  {
  }

  lemma AllCompared(cached: Table, zfs: Table, ds: Dataset, desired: map<Property, Value>, readable: set<Property>,
                    done: set<Property>, known: Table, unset: map<Property, Value>)
    requires Compared(cached, zfs, ds, desired, readable, done, known, unset) && done == desired.Keys
    ensures Readable(zfs, ds, Needed(cached, ds, desired), readable)
    ensures Learned(cached, zfs, ds, desired, known) && Split(cached, zfs, ds, desired, known, unset)
    ensures Needed(cached, ds, desired) == {} ==> known == cached
  {
    hide Needed, Agrees;
    NeededDesired(cached, ds, desired);
  }

  class Cache {
    var cached: Table
    var seen: set<Dataset>   // datasets with an entry in the cache
    var zfs: Table           // the properties as ZFS has them
    var commands: nat        // zfs commands issued so far

    constructor (z: Table)
      ensures cached == map[] && seen == {} && zfs == z && commands == 0 && Coherent()
    {
      cached, seen, zfs, commands := map[], {}, z, 0;
    }

    /** What the cache holds is what ZFS has. */
    ghost predicate Coherent()
      reads this
    {
      Agrees(cached, zfs) && forall k :: k in cached ==> k.0 in seen
    }

    /** Looks at one property: the cache vouches for it, ZFS has it, or it is unset. */
    method CompareOne(ds: Dataset, desired: map<Property, Value>, readable: set<Property>, ghost done: set<Property>, p: Property,
                      known: Table, unset: map<Property, Value>)
      returns (ok: bool, known': Table, unset': map<Property, Value>)
      requires p in desired && p !in done && Compared(cached, zfs, ds, desired, readable, done, known, unset)
      modifies this`commands
      ensures ok <==> p !in Needed(cached, ds, desired) || (p in readable && (ds, p) in zfs)
      ensures commands == old(commands) + if p in Needed(cached, ds, desired) then 1 else 0
      ensures if ok then Compared(cached, zfs, ds, desired, readable, done + {p}, known', unset')
              else known' == known && unset' == unset
    {
      hide Compared, Needed;
      CompareNext(cached, zfs, ds, desired, readable, done, known, unset, p);
      known', unset' := known, unset;
      if (ds, p) in known && known[(ds, p)] == desired[p] { return true, known', unset'; }
      commands := commands + 1;
      if p !in readable || (ds, p) !in zfs { return false, known', unset'; }
      if zfs[(ds, p)] == desired[p] {
        CompareAgrees(cached, zfs, ds, desired, readable, done, known, unset, p);
        known' := known'[(ds, p) := desired[p]];
      } else {
        CompareDiffers(cached, zfs, ds, desired, readable, done, known, unset, p);
        unset' := unset'[p := desired[p]];
      }
      return true, known', unset';
    }

    /** Checks the desired properties one by one against the cache and ZFS; what
        differs is collected in `unset`. `known` is the dataset's part of the cache. */
    method Compare(ds: Dataset, desired: map<Property, Value>, readable: set<Property>)
      returns (ok: bool, known: Table, unset: map<Property, Value>)
      requires Coherent()
      modifies this`commands
      ensures ok <==> Readable(zfs, ds, Needed(cached, ds, desired), readable)
      ensures Learned(cached, zfs, ds, desired, known)
      ensures ok ==> Split(cached, zfs, ds, desired, known, unset)
      ensures ok && Needed(cached, ds, desired) == {} ==> known == cached
      ensures if ok then commands == old(commands) + |Needed(cached, ds, desired)| else commands > old(commands)
    {
      hide Compared, Needed, Agrees, Learned, Split, Readable;
      known, unset := cached, map[];
      ghost var needed := Needed(cached, ds, desired);
      NeededDesired(cached, ds, desired);
      NothingCompared(cached, zfs, ds, desired, readable);
      var rest := desired.Keys;
      ghost var done: set<Property> := {};
      assert needed * done == {};
      while rest != {}
        invariant rest == desired.Keys - done && done <= desired.Keys
        invariant commands == old(commands) + |needed * done|
        invariant Compared(cached, zfs, ds, desired, readable, done, known, unset)
        decreases |rest|
      {
        var p :| p in rest;
        ok, known, unset := CompareOne(ds, desired, readable, done, p, known, unset);
        if !ok {
          ComparedPart(cached, zfs, ds, desired, readable, done, known, unset);
          Unreadable(zfs, ds, needed, readable, p);
          return;
        }
        OneMore(needed, desired.Keys, done, p);
        rest := rest - {p};
        done := done + {p};
      }
      ok := true;
      AllDone(needed, desired.Keys, done);
      AllCompared(cached, zfs, ds, desired, readable, done, known, unset);
    }

    /** Sets the desired properties that the cache does not know to be set.
        `readable` are the properties that can be read, `settable` tells whether
        the set command succeeds; a failed command changes nothing. What a failing
        call has learned stays in the cache of a dataset seen before. */
    method SetPoolFSPropertiesIfNot(ds: Dataset, desired: map<Property, Value>, readable: set<Property>, settable: bool) returns (ok: bool)
      requires Coherent()
      modifies this
      ensures Coherent()
      ensures var needed := Needed(old(cached), ds, desired);
        ok <==> Readable(old(zfs), ds, needed, readable) && (Differs(old(zfs), ds, desired, needed) ==> settable)
      ensures var needed := Needed(old(cached), ds, desired);
        if ok then commands == old(commands) + |needed| + (if Differs(old(zfs), ds, desired, needed) then 1 else 0)
        else commands > old(commands)
      ensures ok ==> HasAll(zfs, ds, desired) && HasAll(cached, ds, desired)
      ensures SameOutside(zfs, old(zfs), ds, desired) && SameOutside(cached, old(cached), ds, desired)
      ensures !ok ==> zfs == old(zfs) && seen == old(seen)
      ensures ok ==> seen == old(seen) + {ds}
      ensures !ok && ds !in old(seen) ==> cached == old(cached)
      ensures !ok && ds in old(seen) && Readable(old(zfs), ds, Needed(old(cached), ds, desired), readable) ==>
                KnowsEqual(old(cached), old(zfs), cached, ds, desired)
      ensures HasAll(old(cached), ds, desired) ==> ok && commands == old(commands) && zfs == old(zfs) && cached == old(cached)
    {
      hide HasAll, Needed, Differs, Agrees, Readable, Learned, Split, SameOutside;
      NothingNeeded(cached, zfs, ds, desired);
      NeededDesired(cached, ds, desired);
      NothingToDo(zfs, ds, desired, readable);
      var known, unset;
      ok, known, unset := Compare(ds, desired, readable);
      LearnedCoherent(cached, zfs, ds, desired, known, seen);
      if ok {
        DifferingUnset(cached, zfs, ds, desired, known, readable, unset);
        WrittenCoherent(cached, zfs, ds, desired, known, unset, seen);
      }
      if !ok || unset == map[] {
        if ok {
          AllKnown(cached, known, zfs, ds, desired, unset);
          seen := seen + {ds};
        }
        if ds in seen { cached := known; }
        return;
      }
      commands := commands + 1;
      if !settable {
        if ds in seen { cached := known; }
        return false;
      }
      zfs := Written(zfs, ds, unset);
      cached := Written(known, ds, unset);
      seen := seen + {ds};
    }

    /** After a successful call the same call again issues no command. */
    method SetTwice(ds: Dataset, desired: map<Property, Value>, readable: set<Property>, settable: bool, readable': set<Property>, settable': bool)
      returns (ok: bool, ok': bool, between: nat)
      requires Coherent()
      modifies this
      ensures Coherent()
      ensures ok ==> ok' && commands == between && HasAll(zfs, ds, desired)
    {
      ok := SetPoolFSPropertiesIfNot(ds, desired, readable, settable);
      between := commands;
      ok' := SetPoolFSPropertiesIfNot(ds, desired, readable', settable');
    }
  }

  /** The table with the given properties of a dataset overwritten. */
  function Written(t: Table, ds: Dataset, props: map<Property, Value>): (r: Table)
    ensures forall k :: k in r <==> k in t || (k.0 == ds && k.1 in props)
    ensures forall k :: k in r ==> r[k] == if k.0 == ds && k.1 in props then props[k.1] else t[k]
  {
    map k | k in t.Keys + (set p | p in props :: (ds, p)) :: if k.0 == ds && k.1 in props then props[k.1] else t[k]
  }

  lemma DifferingUnset(cached: Table, zfs: Table, ds: Dataset, desired: map<Property, Value>, known: Table, readable: set<Property>,
                       unset: map<Property, Value>)
    requires Split(cached, zfs, ds, desired, known, unset) && Readable(zfs, ds, Needed(cached, ds, desired), readable)
    ensures unset != map[] <==> Differs(zfs, ds, desired, Needed(cached, ds, desired))
    ensures KnowsEqual(cached, zfs, known, ds, desired)
  {
    NeededDesired(cached, ds, desired);
    if unset != map[] { var p :| p in unset; }
  }

  lemma AllKnown(cached: Table, known: Table, zfs: Table, ds: Dataset, desired: map<Property, Value>, unset: map<Property, Value>)
    requires Learned(cached, zfs, ds, desired, known) && Split(cached, zfs, ds, desired, known, unset) && unset == map[]
    ensures HasAll(known, ds, desired) && HasAll(zfs, ds, desired)
  {
    hide Needed;
  }

  lemma LearnedCoherent(cached: Table, zfs: Table, ds: Dataset, desired: map<Property, Value>, known: Table, seen: set<Dataset>)
    requires Learned(cached, zfs, ds, desired, known) && forall k :: k in cached ==> k.0 in seen
    ensures Agrees(known, zfs) && forall k :: k in known ==> k.0 in seen + {ds}
    ensures SameOutside(known, cached, ds, desired)
    ensures SameOutside(cached, cached, ds, desired) && SameOutside(zfs, zfs, ds, desired)
  {
  }

  /** Setting what is unset, in ZFS and in the cache, makes both as desired. */
  lemma WrittenCoherent(cached: Table, zfs: Table, ds: Dataset, desired: map<Property, Value>, known: Table, unset: map<Property, Value>,
                        seen: set<Dataset>)
    requires Learned(cached, zfs, ds, desired, known) && Split(cached, zfs, ds, desired, known, unset)
    requires forall k :: k in cached ==> k.0 in seen
    ensures var c, z := Written(known, ds, unset), Written(zfs, ds, unset);
      && Agrees(c, z) && HasAll(c, ds, desired) && HasAll(z, ds, desired) && (forall k :: k in c ==> k.0 in seen + {ds})
      && SameOutside(c, cached, ds, desired) && SameOutside(z, zfs, ds, desired)
  {
    hide Needed, Written, Agrees, HasAll, SameOutside;
    LearnedCoherent(cached, zfs, ds, desired, known, seen);
    BothWritten(known, zfs, ds, unset);
    NowHasAll(known, ds, desired, unset);
    AgreeAll(Written(known, ds, unset), Written(zfs, ds, unset), ds, desired);
    WrittenInside(known, cached, ds, desired, unset);
    WrittenInside(zfs, zfs, ds, desired, unset);
  }

  lemma BothWritten(known: Table, zfs: Table, ds: Dataset, unset: map<Property, Value>)
    requires Agrees(known, zfs)
    ensures Agrees(Written(known, ds, unset), Written(zfs, ds, unset))
  {
  }

  lemma NowHasAll(known: Table, ds: Dataset, desired: map<Property, Value>, unset: map<Property, Value>)
    requires forall p :: p in unset ==> p in desired && unset[p] == desired[p]
    requires forall p :: p in desired && p !in unset ==> (ds, p) in known && known[(ds, p)] == desired[p]
    ensures HasAll(Written(known, ds, unset), ds, desired)
  {
  }

  lemma AgreeAll(a: Table, b: Table, ds: Dataset, desired: map<Property, Value>)
    requires Agrees(a, b) && HasAll(a, ds, desired)
    ensures HasAll(b, ds, desired)
  {
  }

  lemma WrittenInside(t: Table, base: Table, ds: Dataset, desired: map<Property, Value>, unset: map<Property, Value>)
    requires SameOutside(t, base, ds, desired) && forall p :: p in unset ==> p in desired
    ensures SameOutside(Written(t, ds, unset), base, ds, desired)
  {
  }
}
