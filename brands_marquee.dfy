/**
 * The scrolling brand strip on the landing page
 * (src/components/BrandsMarquee.tsx): the two rows built from the brand
 * list, the colour of each make, and the row that is highlighted.
 */
module BrandsMarquee {

  datatype Brand = Brand(name: string)

  /** The sequence read back to front. */
  function Reversed<T>(s: seq<T>): (r: seq<T>)
    ensures |r| == |s|
  {
    if s == [] then [] else Reversed(s[1..]) + [s[0]]
  }

  lemma {:induction false} ReversedAt<T>(s: seq<T>, i: int)
    requires 0 <= i < |s|
    ensures Reversed(s)[i] == s[|s| - 1 - i]
  {
    if i < |s| - 1 {
      ReversedAt(s[1..], i);
    }
  }

  lemma {:induction false} ReversedTwice<T>(s: seq<T>)
    ensures Reversed(Reversed(s)) == s
  {
    var r := Reversed(s);
    forall i | 0 <= i < |s|
      ensures Reversed(r)[i] == s[i]
    {
      ReversedAt(r, i);
      ReversedAt(s, |s| - 1 - i);
    }
  }

  /** `Array.prototype.reverse`: swaps the ends inwards, in place. */
  method ReverseInPlace<T>(a: array<T>)
    modifies a
    ensures a[..] == Reversed(old(a[..]))
  {
    var n := a.Length;
    var i := 0;
    while i < n / 2
      invariant 0 <= i <= n / 2
      invariant forall k :: 0 <= k < i ==> a[k] == old(a[n - 1 - k]) && a[n - 1 - k] == old(a[k])
      invariant forall k :: i <= k < n - i ==> a[k] == old(a[k])
    {
      a[i], a[n - 1 - i] := a[n - 1 - i], a[i];
      i := i + 1;
    }
    forall k | 0 <= k < n
      ensures a[k] == Reversed(old(a[..]))[k]
    {
      ReversedAt(old(a[..]), k);
    }
  }

  /**
   * The two rows: the brands twice, and the brands reversed then in order.
   * The second row reverses the caller's array twice, so the array is left
   * as it was.
   */
  method BuildRows(brands: array<Brand>) returns (row1: seq<Brand>, row2: seq<Brand>)
    modifies brands
    ensures row1 == old(brands[..]) + old(brands[..])
    ensures row2 == Reversed(old(brands[..])) + old(brands[..])
    ensures brands[..] == old(brands[..])
  {
    row1 := brands[..] + brands[..];
    ReverseInPlace(brands);
    var first := brands[..];
    ReverseInPlace(brands);
    ReversedTwice(old(brands[..]));
    row2 := first + brands[..];
  }

  // ------------------------------------------------------------ colours

  /** `toLowerCase` on the ASCII letters. */
  function LowerChar(c: char): (l: char)
    ensures 'A' <= c <= 'Z' ==> l as int == c as int + 32
    ensures !('A' <= c <= 'Z') ==> l == c
  {
    if 'A' <= c <= 'Z' then (c as int + 32) as char else c
  }

  function ToLower(s: string): (r: string)
    ensures |r| == |s|
    ensures forall i :: 0 <= i < |s| ==> r[i] == LowerChar(s[i])
  {
    if s == [] then [] else [LowerChar(s[0])] + ToLower(s[1..])
  }

  lemma {:induction false} ToLowerIdempotent(s: string)
    ensures ToLower(ToLower(s)) == ToLower(s)
  {
    if s != [] {
      ToLowerIdempotent(s[1..]);
      assert ToLower(s)[1..] == ToLower(s[1..]);
    }
  }

  const Accent := "var(--accent-primary)"

  /** The makes that have a colour of their own. */
  const Makes: set<string> := {"bmw", "mercedes", "audi", "toyota", "honda", "hyundai", "kia", "nissan"}

  /** The colour table, including its `default` entry. */
  const Palette: map<string, string> := map[
    "bmw" := "#0066B1", "mercedes" := "#00A19C", "audi" := "#BB0A30", "toyota" := "#EB0A1E",
    "honda" := "#047BC0", "hyundai" := "#002C5F", "kia" := "#BB162B", "nissan" := "#C3002F",
    "default" := Accent]

  /** A make's colour, looked up by its lower-cased name; unknown names get the accent colour. */
  function GetBrandColor(name: string): (color: string)
    ensures ToLower(name) in Makes ==> color == Palette[ToLower(name)]
    ensures color == Accent <==> ToLower(name) !in Makes
  {
    var key := ToLower(name);
    if key in Palette then Palette[key] else Palette["default"]
  }

  /** The colour does not depend on the letter case of the name. */
  lemma ColorIgnoresCase(name: string)
    ensures GetBrandColor(ToLower(name)) == GetBrandColor(name)
  {
    ToLowerIdempotent(name);
  }

  // ------------------------------------------------------ highlighted row

  /** `(prev + 1) % 2` */
  function NextRow(row: nat): (next: nat)
    ensures next < 2
    ensures row < 2 ==> next != row
  {
    (row + 1) % 2
  }

  lemma NextRowTwice(row: nat)
    requires row < 2
    ensures NextRow(NextRow(row)) == row
  {
  }

  class Marquee {
    var isHovered: bool
    var activeRow: nat

    predicate Valid()
      reads this
    {
      activeRow < 2
    }

    constructor ()
      ensures Valid() && !isHovered && activeRow == 0
    {
      isHovered := false;
      activeRow := 0;
    }

    /** The five-second interval: the highlight moves to the other row unless the strip is hovered. */
    method Tick()
      requires Valid()
      modifies this
      ensures Valid() && isHovered == old(isHovered)
      ensures old(isHovered) ==> activeRow == old(activeRow)
      ensures !old(isHovered) ==> activeRow != old(activeRow)
    {
      if !isHovered {
        activeRow := NextRow(activeRow);
      }
    }

    method MouseEnter()
      requires Valid()
      modifies this
      ensures Valid() && isHovered && activeRow == old(activeRow)
    {
      isHovered := true;
    }

    method MouseLeave()
      requires Valid()
      modifies this
      ensures Valid() && !isHovered && activeRow == old(activeRow)
    {
      isHovered := false;
    }

    /** Exactly one of the two rows carries the `active` class. */
    function RowActive(row: nat): (active: bool)
      requires Valid()
      reads this
      ensures row < 2 ==> (active <==> row == activeRow)
      ensures active ==> row < 2
    {
      activeRow == row
    }
  }
}
