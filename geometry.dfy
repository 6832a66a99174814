/**
 * Integer rectangles with the parts of pygame's `Rect` that the portal mechanic uses:
 * the centre properties, `colliderect`, and `spritecollideany` as a first-match search.
 */
module Geometry {
  import opened Wrappers

  /** Left edge `x`, top edge `y`, width `w`, height `h`; screen `y` grows downward. */
  datatype Rect = Rect(x: int, y: int, w: nat, h: nat)

  /** `rect.centerx`: the left edge plus half the width, rounded down. */
  function CenterX(r: Rect): int { r.x + r.w / 2 }

  /** `rect.centery`. */
  function CenterY(r: Rect): int { r.y + r.h / 2 }

  /** Assigning `rect.centerx := cx`: moves the rectangle horizontally, keeps its size. */
  function WithCenterX(r: Rect, cx: int): (r': Rect)
    ensures CenterX(r') == cx
    ensures r'.y == r.y && r'.w == r.w && r'.h == r.h
  {
    r.(x := cx - r.w / 2)
  }

  /** Assigning `rect.centery := cy`: moves the rectangle vertically, keeps its size. */
  function WithCenterY(r: Rect, cy: int): (r': Rect)
    ensures CenterY(r') == cy
    ensures r'.x == r.x && r'.w == r.w && r'.h == r.h
  {
    r.(y := cy - r.h / 2)
  }

  /** pygame's `colliderect`: the open interiors of the two rectangles intersect. */
  predicate Overlaps(a: Rect, b: Rect) {
    a.x < b.x + b.w && b.x < a.x + a.w && a.y < b.y + b.h && b.y < a.y + a.h
  }

  /** Pixel `(px, py)` lies inside `r`. */
  predicate Contains(r: Rect, px: int, py: int) {
    r.x <= px < r.x + r.w && r.y <= py < r.y + r.h
  }

  /** Some pixel lies inside both rectangles. */
  ghost predicate SharePixel(a: Rect, b: Rect) {
    exists px, py :: Contains(a, px, py) && Contains(b, px, py)
  }

  /** The rectangle covers at least one pixel. */
  predicate NonEmpty(r: Rect) {
    0 < r.w && 0 < r.h
  }

  /**
   * Two rectangles that cover a common pixel overlap, and for rectangles of positive size
   * `colliderect` holds exactly then. (The interval formula alone also lets a zero-width
   * rectangle strictly inside another one's span overlap it.)
   */
  lemma OverlapsIffSharePixel(a: Rect, b: Rect)
    ensures SharePixel(a, b) ==> Overlaps(a, b)
    ensures NonEmpty(a) && NonEmpty(b) ==> (Overlaps(a, b) <==> SharePixel(a, b))
  {
    if Overlaps(a, b) && NonEmpty(a) && NonEmpty(b) {
      var px := if a.x < b.x then b.x else a.x;
      var py := if a.y < b.y then b.y else a.y;
      assert Contains(a, px, py) && Contains(b, px, py);
    }
  }

  /**
   * `spritecollideany` over a group iterated in insertion order, from position `from` on:
   * the index of the first rectangle that overlaps `r`, if any.
   */
  function FirstOverlapFrom(rs: seq<Rect>, r: Rect, from: nat): (k: Option<nat>)
    requires from <= |rs|
    ensures k.Some? ==> from <= k.value < |rs| && Overlaps(r, rs[k.value])
    ensures k.Some? ==> forall j :: from <= j < k.value ==> !Overlaps(r, rs[j])
    ensures k.None? ==> forall j :: from <= j < |rs| ==> !Overlaps(r, rs[j])
    decreases |rs| - from
  {
    if from == |rs| then None
    else if Overlaps(r, rs[from]) then Some(from)
    else FirstOverlapFrom(rs, r, from + 1)
  }

  /** `spritecollideany(sprite, group)`: the first member of `rs` that `r` overlaps. */
  function FirstOverlap(rs: seq<Rect>, r: Rect): (k: Option<nat>)
    ensures k.Some? ==> k.value < |rs| && Overlaps(r, rs[k.value])
    ensures k.Some? ==> forall j :: 0 <= j < k.value ==> !Overlaps(r, rs[j])
    ensures k.None? ==> forall j :: 0 <= j < |rs| ==> !Overlaps(r, rs[j])
  {
    FirstOverlapFrom(rs, r, 0)
  }

  /** `sprite.kill()` on the member at position `i`: the others keep their order. */
  function RemoveAt<T>(s: seq<T>, i: nat): (r: seq<T>)
    requires i < |s|
    ensures |r| == |s| - 1
    ensures forall j :: 0 <= j < i ==> r[j] == s[j]
    ensures forall j :: i <= j < |r| ==> r[j] == s[j + 1]
  {
    s[..i] + s[i + 1..]
  }

  /** Removing position `i` removes exactly one copy of `s[i]`. */
  lemma RemoveAtMultiset<T>(s: seq<T>, i: nat)
    requires i < |s|
    ensures multiset(RemoveAt(s, i)) == multiset(s) - multiset{s[i]}
  {
    assert s == s[..i] + [s[i]] + s[i + 1..];
    assert multiset(s) == multiset(s[..i]) + multiset{s[i]} + multiset(s[i + 1..]);
  }
}
