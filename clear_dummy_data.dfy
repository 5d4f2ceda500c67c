/**
 * `src/utils/clearDummyData.js`: the console helper that drops cached demo
 * data from localStorage: four fixed keys when they hold something, and
 * every stored form preview.
 */
module ClearDummyData {
  import opened Storage
  import opened JsStrings

  const ResponsesDemoKey := "smartpath_responses_demo"
  const FormDemoKey := "smartpath_form_demo"
  const TempPreviewPrefix := "smartpath_form_temp_preview_"

  /** `keysToCheck`. */
  const KeysToCheck := [FormsKey, FoldersKey, ResponsesDemoKey, FormDemoKey]

  /** The fixed keys that hold a non-empty value. */
  function FixedRemoved(local: Store): (r: set<string>)
    ensures forall k :: k in r <==> k in KeysToCheck && Present(local, k)
  {
    set k | k in KeysToCheck && Present(local, k)
  }

  /** The stored form previews, whatever they hold. */
  function PreviewKeys(local: Store): (r: set<string>)
    ensures forall k :: k in r <==> k in local && StartsWith(k, TempPreviewPrefix)
  {
    set k | k in local && StartsWith(k, TempPreviewPrefix)
  }

  /** Every key the helper removes. */
  function Removed(local: Store): (r: set<string>)
    ensures r <= local.Keys
  {
    FixedRemoved(local) + PreviewKeys(local)
  }

  /** No fixed key is a preview key. */
  lemma FixedKeysAreNotPreviews(k: string)
    requires k in KeysToCheck
    ensures !StartsWith(k, TempPreviewPrefix)
  {
  }

  /** After a run nothing is left to remove: a second run reports that nothing was cleared. */
  lemma ClearingTwiceFindsNothing(local: Store)
    ensures Removed(local - Removed(local)) == {}
  {
  }

  /** The fixed keys are distinct. */
  lemma KeysToCheckDistinct()
    ensures forall i, j :: 0 <= i < j < |KeysToCheck| ==> KeysToCheck[i] != KeysToCheck[j]
  {
    assert |KeysToCheck[0]| == 15 && |KeysToCheck[1]| == 17 && |KeysToCheck[2]| == 24 && |KeysToCheck[3]| == 19;
  }

  /** The keys of `keys` that hold a non-empty value. */
  function PresentAmong(local: Store, keys: seq<string>): (r: set<string>)
    ensures forall k :: k in r <==> k in keys && Present(local, k)
  {
    set k | k in keys && Present(local, k)
  }

  /** The keys found after one more step of the pass over distinct keys. */
  lemma PresentAmongNext(local: Store, keys: seq<string>, i: nat)
    requires i < |keys| && forall a, b :: 0 <= a < b < |keys| ==> keys[a] != keys[b]
    ensures var seen, next := PresentAmong(local, keys[..i]), PresentAmong(local, keys[..i + 1]);
      keys[i] !in seen
      && next == seen + (if Present(local, keys[i]) then {keys[i]} else {})
      && |next| == |seen| + (if Present(local, keys[i]) then 1 else 0)
  {
    var seen := PresentAmong(local, keys[..i]);
    assert keys[..i + 1] == keys[..i] + [keys[i]];
    assert keys[i] !in keys[..i];
    assert keys[i] !in seen;
  }

  /** The store after one more step of the pass over distinct keys. */
  lemma RemovalNext(start: Store, keys: seq<string>, i: nat, local: Store)
    requires i < |keys| && forall a, b :: 0 <= a < b < |keys| ==> keys[a] != keys[b]
    requires local == start - PresentAmong(start, keys[..i])
    ensures Present(local, keys[i]) == Present(start, keys[i])
    ensures Present(local, keys[i]) ==> local - {keys[i]} == start - PresentAmong(start, keys[..i + 1])
    ensures !Present(local, keys[i]) ==> local == start - PresentAmong(start, keys[..i + 1])
  {
    PresentAmongNext(start, keys, i);
    var seen, next := PresentAmong(start, keys[..i]), PresentAmong(start, keys[..i + 1]);
    if Present(start, keys[i]) {
      MinusOneMore(start, seen, keys[i]);
    } else {
      assert next == seen;
    }
  }

  lemma MinusOneMore(m: Store, gone: set<string>, key: string)
    ensures m - gone - {key} == m - (gone + {key})
  {
  }

  /** The `keysToCheck.forEach` pass: each fixed key holding a value is removed and counted. */
  method RemoveFixed(b: Browser) returns (cleared: nat)
    requires b.Valid()
    modifies b
    ensures b.Valid() && b.jar == old(b.jar) && b.location == old(b.location)
    ensures b.local == old(b.local) - FixedRemoved(old(b.local))
    ensures cleared == |FixedRemoved(old(b.local))|
  {
    KeysToCheckDistinct();
    cleared := RemovePresent(b, KeysToCheck);
    assert PresentAmong(old(b.local), KeysToCheck) == FixedRemoved(old(b.local));
  }

  /** Removes, one after the other, each of the distinct `keys` that holds a value, counting them. */
  method RemovePresent(b: Browser, keys: seq<string>) returns (cleared: nat)
    requires b.Valid()
    requires forall i, j :: 0 <= i < j < |keys| ==> keys[i] != keys[j]
    modifies b
    ensures b.Valid() && b.jar == old(b.jar) && b.location == old(b.location)
    ensures b.local == old(b.local) - PresentAmong(old(b.local), keys)
    ensures cleared == |PresentAmong(old(b.local), keys)|
  {
    ghost var start := b.local;
    cleared := 0;
    var i := 0;
    while i < |keys|
      invariant 0 <= i <= |keys|
      invariant b.Valid() && b.jar == old(b.jar) && b.location == old(b.location)
      invariant b.local == start - PresentAmong(start, keys[..i])
      invariant cleared == |PresentAmong(start, keys[..i])|
    {
      var key := keys[i];
      PresentAmongNext(start, keys, i);
      RemovalNext(start, keys, i, b.local);
      if Present(b.local, key) {
        b.RemoveItem(key);
        cleared := cleared + 1;
      }
      i := i + 1;
    }
    assert keys[..i] == keys;
  }

  /** The `Object.keys(localStorage).forEach` pass: every preview key is removed and counted. */
  method RemovePreviews(b: Browser) returns (cleared: nat)
    requires b.Valid()
    modifies b
    ensures b.Valid() && b.jar == old(b.jar) && b.location == old(b.location)
    ensures b.local == old(b.local) - PreviewKeys(old(b.local))
    ensures cleared == |PreviewKeys(old(b.local))|
  {
    ghost var start := b.local;
    var keys := b.local.Keys;
    var todo := keys;
    cleared := 0;
    ghost var previews: set<string> := {};
    while todo != {}
      invariant todo <= keys
      invariant b.Valid() && b.jar == old(b.jar) && b.location == old(b.location)
      invariant forall k :: k in previews <==> k in keys && k !in todo && StartsWith(k, TempPreviewPrefix)
      invariant b.local == start - previews
      invariant cleared == |previews|
      decreases |todo|
    {
      var key :| key in todo;
      if StartsWith(key, TempPreviewPrefix) {
        assert key !in previews;
        b.RemoveItem(key);
        cleared := cleared + 1;
        previews := previews + {key};
      }
      todo := todo - {key};
    }
    assert previews == PreviewKeys(start);
  }

  /**
   * `clearDummyData()`: the fixed keys holding a value are removed, then
   * every preview key of the stored keys; nothing else changes. The answer
   * is whether the count of removals is positive, that is whether anything
   * was removed.
   */
  method Clear(b: Browser) returns (clearedAny: bool)
    requires b.Valid()
    modifies b
    ensures b.Valid() && b.jar == old(b.jar) && b.location == old(b.location)
    ensures b.local == old(b.local) - Removed(old(b.local))
    ensures clearedAny <==> Removed(old(b.local)) != {}
  {
    ghost var start := b.local;
    var fixedCount := RemoveFixed(b);
    ghost var middle := b.local;
    var previewCount := RemovePreviews(b);
    assert PreviewKeys(middle) == PreviewKeys(start) by {
      forall k | k in PreviewKeys(start) ensures k in PreviewKeys(middle) {
        if k in FixedRemoved(start) {
          FixedKeysAreNotPreviews(k);
        }
      }
    }
    assert b.local == start - Removed(start);
    var cleared := fixedCount + previewCount;
    assert cleared > 0 <==> Removed(start) != {} by {
      if Removed(start) != {} {
        var k :| k in Removed(start);
        assert k in FixedRemoved(start) || k in PreviewKeys(start);
      }
    }
    clearedAny := cleared > 0;
  }
}
