/** The order of text columns: lexicographic by code point. */
module TextOrder {
  predicate Less(a: string, b: string)
    decreases |a|
  {
    b != [] && (a == [] || a[0] < b[0] || (a[0] == b[0] && Less(a[1..], b[1..])))
  }

  lemma {:induction false} Irreflexive(a: string)
    ensures !Less(a, a)
  {
    if a != [] {
      Irreflexive(a[1..]);
    }
  }

  lemma {:induction false} Transitive(a: string, b: string, c: string)
    requires Less(a, b) && Less(b, c)
    ensures Less(a, c)
    decreases |a|
  {
    if a != [] && a[0] == b[0] == c[0] {
      Transitive(a[1..], b[1..], c[1..]);
    }
  }

  /** A common prefix does not count. */
  lemma {:induction false} PrefixKeepsOrder(prefix: string, a: string, b: string)
    ensures Less(prefix + a, prefix + b) == Less(a, b)
    decreases |prefix|
  {
    if prefix == [] {
      assert prefix + a == a && prefix + b == b;
    } else {
      PrefixKeepsOrder(prefix[1..], a, b);
      assert (prefix + a)[1..] == prefix[1..] + a && (prefix + b)[1..] == prefix[1..] + b;
    }
  }

  /** The texts agree before the place, and there the first ends or is smaller. */
  predicate SmallerAt(a: string, b: string, i: nat) {
    i <= |a| && i < |b| && a[..i] == b[..i] && (i < |a| ==> a[i] < b[i])
  }

  lemma {:induction false} LessIff(a: string, b: string)
    ensures Less(a, b) <==> exists i :: 0 <= i <= |a| && SmallerAt(a, b, i)
    decreases |a|
  {
    if b != "" && a != "" && a[0] == b[0] {
      LessIff(a[1..], b[1..]);
      forall i: nat {
        LaterAt(a, b, i);
      }
      if i :| 0 <= i <= |a[1..]| && SmallerAt(a[1..], b[1..], i) {
        assert SmallerAt(a, b, i + 1);
      }
      if i :| 0 <= i <= |a| && SmallerAt(a, b, i) {
        assert i > 0 && SmallerAt(a[1..], b[1..], i - 1);
      }
    } else if b != "" {
      assert SmallerAt(a, b, 0) <==> a == "" || a[0] < b[0];
      assert forall i :: 0 < i <= |a| && SmallerAt(a, b, i) ==> a[..i][0] == b[..i][0];
    }
  }

  lemma LaterAt(a: string, b: string, i: nat)
    requires a != "" && b != "" && a[0] == b[0]
    ensures SmallerAt(a, b, i + 1) <==> SmallerAt(a[1..], b[1..], i)
  {
    if i < |a| && i < |b| {
      assert a[..i + 1] == [a[0]] + a[1..][..i] && b[..i + 1] == [b[0]] + b[1..][..i];
    }
  }

  /** Rows sorted by a text column and then by id. */
  datatype Place = Place(time: string, id: string)

  predicate Before(a: Place, b: Place) {
    Less(a.time, b.time) || (a.time == b.time && Less(a.id, b.id))
  }

  /** An earlier time comes first, and of one time the smaller id. */
  lemma BeforeIff(a: Place, b: Place)
    ensures Before(a, b) <==>
      || (exists i :: 0 <= i <= |a.time| && SmallerAt(a.time, b.time, i))
      || (a.time == b.time && exists i :: 0 <= i <= |a.id| && SmallerAt(a.id, b.id, i))
  {
    LessIff(a.time, b.time);
    LessIff(a.id, b.id);
  }

  lemma BeforeIsStrict(a: Place, b: Place)
    requires Before(a, b)
    ensures !Before(b, a) && a != b
  {
    Irreflexive(a.time);
    Irreflexive(a.id);
    if Less(a.time, b.time) && Less(b.time, a.time) {
      Transitive(a.time, b.time, a.time);
    }
    if Less(a.id, b.id) && Less(b.id, a.id) {
      Transitive(a.id, b.id, a.id);
    }
  }
}
