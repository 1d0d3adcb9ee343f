/** The document collections, held in memory, and what reading them in the
    database's iteration order yields. */
module Store {
  import opened Common
  import opened Models

  /** One collection of the fixed tenant: documents by identifier. */
  class Collection<T> {
    var docs: map<Id, Doc<T>>

    constructor (initial: map<Id, Doc<T>>)
      ensures docs == initial
    {
      docs := initial;
    }
  }

  predicate Distinct(keys: seq<Id>) {
    forall i, j :: 0 <= i < j < |keys| ==> keys[i] != keys[j]
  }

  /** Every key the iterator yields names a document of the collection. */
  predicate InCollection<T>(keys: seq<Id>, docs: map<Id, Doc<T>>) {
    forall i :: 0 <= i < |keys| ==> keys[i] in docs
  }

  /** The iterator yields every document of the collection exactly once. */
  predicate Enumerates<T>(keys: seq<Id>, docs: map<Id, Doc<T>>) {
    && Distinct(keys)
    && InCollection(keys, docs)
    && (forall k :: k in docs ==> k in keys)
  }

  /** The documents among keys that decode, in iteration order, each paired
      with the key it is stored under. */
  function Entries<T>(keys: seq<Id>, docs: map<Id, Doc<T>>): (es: seq<(Id, T)>)
    requires InCollection(keys, docs)
    ensures |es| <= |keys|
    ensures forall j :: 0 <= j < |es| ==> es[j].0 in keys && docs[es[j].0] == Decoded(es[j].1)
  {
    if keys == [] then []
    else
      var prev := Entries(keys[..|keys| - 1], docs);
      var k := keys[|keys| - 1];
      match docs[k]
      case Decoded(v) => prev + [(k, v)]
      case Undecodable => prev
  }

  /** Reading one more key appends its document when it decodes. */
  lemma EntriesStep<T>(keys: seq<Id>, docs: map<Id, Doc<T>>, i: nat)
    requires InCollection(keys, docs) && i < |keys|
    ensures InCollection(keys[..i], docs) && InCollection(keys[..i + 1], docs)
    ensures Entries(keys[..i + 1], docs) ==
              match docs[keys[i]]
              case Decoded(v) => Entries(keys[..i], docs) + [(keys[i], v)]
              case Undecodable => Entries(keys[..i], docs)
  {
    assert keys[..i + 1][..i] == keys[..i];
  }

  /** The keys of the entries. */
  function EntryKeys<T>(es: seq<(Id, T)>): (ks: seq<Id>)
    ensures |ks| == |es|
    ensures forall j :: 0 <= j < |es| ==> ks[j] == es[j].0
  {
    if es == [] then [] else EntryKeys(es[..|es| - 1]) + [es[|es| - 1].0]
  }

  /** Entries only drop keys, so distinct keys stay distinct. */
  lemma {:induction false} EntriesDistinct<T>(keys: seq<Id>, docs: map<Id, Doc<T>>)
    requires InCollection(keys, docs) && Distinct(keys)
    ensures Distinct(EntryKeys(Entries(keys, docs)))
  {
    if keys != [] {
      var init := keys[..|keys| - 1];
      assert InCollection(init, docs);
      EntriesDistinct(init, docs);
      var prev := Entries(init, docs);
      var last := keys[|keys| - 1];
      forall j | 0 <= j < |prev|
        ensures prev[j].0 != last
      {
        var i :| 0 <= i < |init| && init[i] == prev[j].0;
      }
    }
  }

  /** Reading a full enumeration yields every decodable document. */
  lemma {:induction false} EntriesComplete<T>(keys: seq<Id>, docs: map<Id, Doc<T>>, k: Id)
    requires InCollection(keys, docs)
    requires k in keys && docs[k].Decoded?
    ensures exists j :: 0 <= j < |Entries(keys, docs)| && Entries(keys, docs)[j] == (k, docs[k].value)
  {
    var init := keys[..|keys| - 1];
    assert InCollection(init, docs);
    if k == keys[|keys| - 1] {
      var es := Entries(keys, docs);
      assert es[|es| - 1] == (k, docs[k].value);
    } else {
      var i :| 0 <= i < |keys| && keys[i] == k;
      assert init[i] == k;
      EntriesComplete(init, docs, k);
      var j :| 0 <= j < |Entries(init, docs)| && Entries(init, docs)[j] == (k, docs[k].value);
      assert Entries(keys, docs)[j] == (k, docs[k].value);
    }
  }

  /** A distinct sequence has as many elements as its set. */
  lemma {:induction false} DistinctSize(keys: seq<Id>)
    requires Distinct(keys)
    ensures |set k | k in keys| == |keys|
  {
    if keys != [] {
      var init := keys[..|keys| - 1];
      var last := keys[|keys| - 1];
      DistinctSize(init);
      assert (set k | k in keys) == (set k | k in init) + {last};
    }
  }

  /** Splitting off the last of keys without repeats. */
  lemma SplitLast<T>(keys: seq<Id>, docs: map<Id, Doc<T>>)
    requires InCollection(keys, docs) && Distinct(keys) && keys != []
    ensures keys == keys[..|keys| - 1] + [keys[|keys| - 1]]
    ensures InCollection(keys[..|keys| - 1], docs) && Distinct(keys[..|keys| - 1])
    ensures keys[|keys| - 1] !in keys[..|keys| - 1]
  {
    var init, last := keys[..|keys| - 1], keys[|keys| - 1];
    assert forall i :: 0 <= i < |init| ==> init[i] == keys[i] && keys[i] != last;
  }

  /** Reading keys without repeats lists as many entries as there are
      decodable documents among those keys. */
  lemma {:induction false} EntriesCount<T>(keys: seq<Id>, docs: map<Id, Doc<T>>)
    requires InCollection(keys, docs) && Distinct(keys)
    ensures |Entries(keys, docs)| == |set k | k in docs && k in keys && docs[k].Decoded?|
  {
    if keys == [] {
      assert forall k :: k !in keys;
    } else {
      var init, last := keys[..|keys| - 1], keys[|keys| - 1];
      SplitLast(keys, docs);
      EntriesCount(init, docs);
      var before := set k | k in docs && k in init && docs[k].Decoded?;
      var after := set k | k in docs && k in keys && docs[k].Decoded?;
      if docs[last].Decoded? {
        assert after == before + {last};
      } else {
        assert after == before;
      }
    }
  }

  /** Reading a full enumeration visits exactly as many documents as the collection holds. */
  lemma EnumerationSize<T>(keys: seq<Id>, docs: map<Id, Doc<T>>)
    requires Enumerates(keys, docs)
    ensures |keys| == |docs|
  {
    DistinctSize(keys);
    assert (set k | k in keys) == docs.Keys;
  }
  /** Along keys, the decodable documents come in non-increasing `rank`. */
  predicate DescendingBy<T>(keys: seq<Id>, docs: map<Id, Doc<T>>, rank: T -> int)
    requires InCollection(keys, docs)
  {
    forall i, j :: (0 <= i < j < |keys| && docs[keys[i]].Decoded? && docs[keys[j]].Decoded?)
      ==> rank(docs[keys[i]].value) >= rank(docs[keys[j]].value)
  }

  /** The entries come in non-increasing `rank`. */
  predicate SortedDescending<T>(es: seq<(Id, T)>, rank: T -> int) {
    forall i, j :: 0 <= i < j < |es| ==> rank(es[i].1) >= rank(es[j].1)
  }

  /** Reading keys keeps their order, so entries read in descending order
      are themselves in descending order. */
  lemma {:induction false} EntriesDescending<T>(keys: seq<Id>, docs: map<Id, Doc<T>>, rank: T -> int)
    requires InCollection(keys, docs) && DescendingBy(keys, docs, rank)
    ensures SortedDescending(Entries(keys, docs), rank)
  {
    if keys != [] {
      var init := keys[..|keys| - 1];
      var last := keys[|keys| - 1];
      assert InCollection(init, docs);
      assert DescendingBy(init, docs, rank);
      EntriesDescending(init, docs, rank);
      var prev := Entries(init, docs);
      if docs[last].Decoded? {
        forall j | 0 <= j < |prev|
          ensures rank(prev[j].1) >= rank(docs[last].value)
        {
          var p :| 0 <= p < |init| && init[p] == prev[j].0;
          assert keys[p] == prev[j].0;
        }
        var es := Entries(keys, docs);
        assert es == prev + [(last, docs[last].value)];
        forall i, j | 0 <= i < j < |es|
          ensures rank(es[i].1) >= rank(es[j].1)
        {
          if j == |es| - 1 {
            assert es[i] == prev[i] && es[j] == (last, docs[last].value);
          } else {
            assert es[i] == prev[i] && es[j] == prev[j];
          }
        }
      }
    }
  }
}
