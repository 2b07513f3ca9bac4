/** The id the handler allocates before routing: one more than the largest stored
    task id read as a Python integer. */
module IdAllocation {
  import opened Wrappers
  import opened PyInt

  /** `int(task_id)` for every scanned id, `None` where `int()` raises. */
  function ParseAll(ids: seq<string>): (r: seq<Option<int>>)
    ensures |r| == |ids| && forall i | 0 <= i < |ids| :: r[i] == ParseInt(ids[i])
  {
    seq(|ids|, i requires 0 <= i < |ids| => ParseInt(ids[i]))
  }

  /** Python's `max` over the parsed ids, in scan order; `None` where it raises
      `ValueError` (an empty sequence, or an id `int()` rejected). */
  function MaxOf(vals: seq<Option<int>>): (r: Option<int>)
    ensures r.Some? <==> |vals| > 0 && forall i | 0 <= i < |vals| :: vals[i].Some?
    ensures r.Some? ==> forall i | 0 <= i < |vals| :: vals[i].value <= r.value
    ensures r.Some? ==> exists i | 0 <= i < |vals| :: vals[i] == r
    decreases |vals|
  {
    if vals == [] then None
    else
      match vals[0]
      case None => None
      case Some(head) =>
        if |vals| == 1 then Some(head)
        else
          match MaxOf(vals[1..])
          case None => None
          case Some(rest) => Some(if head >= rest then head else rest)
  }

  /** Every stored id reads as an integer and there is at least one, so the
      allocation does not raise. */
  ghost predicate Allocatable(keys: set<string>) {
    keys != {} && forall k | k in keys :: ParseInt(k).Some?
  }

  /** `m` is the largest stored id, read as an integer. */
  ghost predicate IsMaxId(keys: set<string>, m: int) {
    && (forall k | k in keys :: ParseInt(k).Some? && ParseInt(k).value <= m)
    && (exists k | k in keys :: ParseInt(k) == Some(m))
  }

  lemma {:induction false} MaxIdExists(keys: set<string>)
    requires Allocatable(keys)
    ensures exists m :: IsMaxId(keys, m)
    decreases |keys|
  {
    var k :| k in keys;
    var v := ParseInt(k).value;
    var rest := keys - {k};
    if rest == {} {
      assert keys == {k};
      assert IsMaxId(keys, v);
    } else {
      MaxIdExists(rest);
      var m :| IsMaxId(rest, m);
      var w :| w in rest && ParseInt(w) == Some(m);
      if v >= m {
        assert IsMaxId(keys, v);
      } else {
        assert IsMaxId(keys, m) by { assert w in keys; }
      }
    }
  }

  lemma MaxIdUnique(keys: set<string>, m: int, m': int)
    requires IsMaxId(keys, m) && IsMaxId(keys, m')
    ensures m == m'
  {
    var a :| a in keys && ParseInt(a) == Some(m);
    var b :| b in keys && ParseInt(b) == Some(m');
  }

  /** The id the handler allocates for a table whose keys are `keys`. */
  ghost function NextId(keys: set<string>): (n: int)
    requires Allocatable(keys)
    ensures IsMaxId(keys, n - 1)
  {
    MaxIdExists(keys);
    var m :| IsMaxId(keys, m);
    m + 1
  }

  /** A scan that lists exactly the stored keys, in some order. */
  ghost predicate ListsKeys(ids: seq<string>, keys: set<string>) {
    && (forall i | 0 <= i < |ids| :: ids[i] in keys)
    && (forall k | k in keys :: k in ids)
  }

  lemma MaxOfScanSome(ids: seq<string>, keys: set<string>, m: int)
    requires ListsKeys(ids, keys)
    requires MaxOf(ParseAll(ids)) == Some(m)
    ensures IsMaxId(keys, m)
  {
    var vals := ParseAll(ids);
    forall k | k in keys ensures ParseInt(k).Some? && ParseInt(k).value <= m {
      var i :| 0 <= i < |ids| && ids[i] == k;
      assert vals[i] == ParseInt(k);
    }
    var j :| 0 <= j < |vals| && vals[j] == Some(m);
    assert ids[j] in keys && ParseInt(ids[j]) == Some(m);
  }

  lemma MaxOfScanNone(ids: seq<string>, keys: set<string>)
    requires ListsKeys(ids, keys)
    requires MaxOf(ParseAll(ids)).None?
    ensures !Allocatable(keys)
  {
    var vals := ParseAll(ids);
    if ids != [] {
      var i :| 0 <= i < |vals| && vals[i].None?;
      assert ids[i] in keys && ParseInt(ids[i]).None?;
    }
  }

  /** Scanning the keys in any order and taking the maximum allocates `NextId`,
      and raises exactly when the keys are not `Allocatable`. */
  lemma MaxOfScan(ids: seq<string>, keys: set<string>)
    requires ListsKeys(ids, keys)
    ensures MaxOf(ParseAll(ids)).Some? <==> Allocatable(keys)
    ensures MaxOf(ParseAll(ids)).Some? ==> MaxOf(ParseAll(ids)).value + 1 == NextId(keys)
  {
    match MaxOf(ParseAll(ids))
    case None => MaxOfScanNone(ids, keys);
    case Some(m) =>
      MaxOfScanSome(ids, keys, m);
      MaxIdUnique(keys, m, NextId(keys) - 1);
  }

  /** The allocated id is not a stored key: it reads as a number larger than
      every stored id. */
  lemma NextIdIsFresh(keys: set<string>)
    requires Allocatable(keys)
    ensures IntToString(NextId(keys)) !in keys
  {
    var n := NextId(keys);
    ParseIntOfIntToString(n);
  }

  /** Storing the allocated id keeps the table allocatable, and the next
      allocation is one more. */
  lemma NextIdAfterInsert(keys: set<string>)
    requires Allocatable(keys)
    ensures Allocatable(keys + {IntToString(NextId(keys))})
    ensures NextId(keys + {IntToString(NextId(keys))}) == NextId(keys) + 1
  {
    var n := NextId(keys);
    var id := IntToString(n);
    var keys' := keys + {id};
    ParseIntOfIntToString(n);
    forall k | k in keys' ensures ParseInt(k).Some? && ParseInt(k).value <= n {
      if k != id {
        assert k in keys;
      }
    }
    assert id in keys';
    assert IsMaxId(keys', n);
    MaxIdUnique(keys', n, NextId(keys') - 1);
  }
}
