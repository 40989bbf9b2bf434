/** The two scans over slices in main.go: `contains` over an item list and
    the opponent filter of `getRealOpponent`. */
module Lists {

  /** `contains(arr, item)`: some element equals the item. */
  function Contains(arr: seq<int>, item: int): (r: bool)
    ensures r <==> exists i :: 0 <= i < |arr| && arr[i] == item
    decreases |arr|
  {
    if |arr| == 0 then false
    else if arr[0] == item then true
    else
      assert forall i :: 1 <= i < |arr| ==> arr[i] == arr[1..][i - 1];
      Contains(arr[1..], item)
  }

  /** The names of the list other than `self`, in list order: what the loop
      of `getRealOpponent` appends to `opponents`. */
  function Others(names: seq<string>, self: string): (r: seq<string>)
    ensures |r| <= |names|
    ensures forall x :: x in r <==> x in names && x != self
    ensures r == [] <==> forall i :: 0 <= i < |names| ==> names[i] == self
    ensures multiset(r) == multiset(names)[self := 0]
    decreases |names|
  {
    if |names| == 0 then []
    else
      var init := names[..|names| - 1];
      var last := names[|names| - 1];
      assert names == init + [last];
      Others(init, self) + (if last != self then [last] else [])
  }

  /** Scanning one more name extends the filtered list by at most that name. */
  lemma OthersSnoc(names: seq<string>, k: nat, self: string)
    requires k < |names|
    ensures Others(names[..k + 1], self)
         == Others(names[..k], self) + (if names[k] != self then [names[k]] else [])
  {
    assert names[..k + 1][..k] == names[..k];
  }
}
