/**
 * A rendered email body. Every template literal of the handlers alternates
 * fixed markup with interpolated values; a document keeps that alternation:
 * each segment is a piece of markup followed by one labelled value, and a
 * trailing piece of markup closes the document. A conditional row is a
 * segment that is present or absent. The markup text is opaque: what the
 * properties talk about is which fields appear, in what order, with which
 * values.
 */
module Document {

  /** The datum an interpolation shows (not the label text around it). */
  datatype Field =
    | Product | Quantity | ShippingTerms
    | Name | Email | Phone | Company | Address | City | State | ZipCode | Notes
    | Message
    | OrderId | OrderDate | PaymentMethod | Items | Subtotal | Total | NextSteps | OwnerEmail
    | ItemName | ItemQuantity | ItemPrice | ItemTotal

  datatype Slot = Slot(field: Field, value: string)

  /** Markup `pre`, then the interpolated `slot.value`. */
  datatype Seg = Seg(pre: string, slot: Slot)

  datatype Doc = Doc(segs: seq<Seg>, tail: string)

  /** The markup and values of `segs`, left to right. */
  function RenderSegs(segs: seq<Seg>): string
  {
    if segs == [] then "" else segs[0].pre + segs[0].slot.value + RenderSegs(segs[1..])
  }

  /** The string the template literal evaluates to. */
  function Render(d: Doc): string
  {
    RenderSegs(d.segs) + d.tail
  }

  /** The interpolated values of some segments, in order, with their fields. */
  function SlotsOf(segs: seq<Seg>): (fs: seq<Slot>)
    ensures |fs| == |segs|
    ensures forall i :: 0 <= i < |fs| ==> fs[i] == segs[i].slot
  {
    seq(|segs|, i requires 0 <= i < |segs| => segs[i].slot)
  }

  /** The interpolated values of a document, in order, with their fields. */
  function Slots(d: Doc): seq<Slot>
  {
    SlotsOf(d.segs)
  }

  /** The template that alternates the markup pieces `pres` with the values `fs`, then `tail`. */
  function Interleave(pres: seq<string>, fs: seq<Slot>, tail: string): (d: Doc)
    requires |pres| == |fs|
    ensures Slots(d) == fs
    ensures forall i :: 0 <= i < |fs| ==> d.segs[i].pre == pres[i]
  {
    Doc(seq(|fs|, i requires 0 <= i < |fs| => Seg(pres[i], fs[i])), tail)
  }

  /** Some interpolation shows field `f` with value `v`. */
  predicate Shows(fs: seq<Slot>, f: Field, v: string)
  {
    Slot(f, v) in fs
  }

  /** No interpolation shows field `f`: its line or row is not there at all. */
  ghost predicate Lacks(fs: seq<Slot>, f: Field)
  {
    forall v :: Slot(f, v) !in fs
  }

  /** Wherever field `f` is shown, its value is `v` (possibly nowhere). */
  ghost predicate OnlyAs(fs: seq<Slot>, f: Field, v: string)
  {
    forall w :: Slot(f, w) in fs ==> w == v
  }

  /** Field `f` is shown, and wherever it is shown its value is `v`. */
  ghost predicate ShowsOnly(fs: seq<Slot>, f: Field, v: string)
  {
    Slot(f, v) in fs && OnlyAs(fs, f, v)
  }

  /** Field `f` is shown exactly once, and its value is `v`. */
  predicate ShowsOnce(fs: seq<Slot>, f: Field, v: string)
  {
    Slot(f, v) in fs && Occurrences(fs, f) == 1
  }

  /** The fields of some interpolations, in order. */
  function FieldsOf(fs: seq<Slot>): (r: seq<Field>)
    ensures |r| == |fs|
    ensures forall i :: 0 <= i < |fs| ==> r[i] == fs[i].field
  {
    seq(|fs|, i requires 0 <= i < |fs| => fs[i].field)
  }

  /** How many interpolations show field `f`. */
  function Occurrences(fs: seq<Slot>, f: Field): nat
  {
    multiset(FieldsOf(fs))[f]
  }

  lemma FieldsOfAppend(a: seq<Slot>, b: seq<Slot>)
    ensures FieldsOf(a + b) == FieldsOf(a) + FieldsOf(b)
  {
  }

  /** Two distinct positions holding `f` make `f` occur at least twice. */
  lemma TwoPositions(r: seq<Field>, i: nat, j: nat, f: Field)
    requires i < j < |r| && r[i] == f && r[j] == f
    ensures multiset(r)[f] >= 2
  {
    assert r == r[..i] + [r[i]] + r[i + 1..j] + [r[j]] + r[j + 1..];
  }

  /** A field shown exactly once has no other value anywhere. */
  lemma OnceIsOnly(fs: seq<Slot>, f: Field, v: string)
    requires ShowsOnce(fs, f, v)
    ensures ShowsOnly(fs, f, v)
  {
    forall w | Slot(f, w) in fs
      ensures w == v
    {
      var i :| 0 <= i < |fs| && fs[i] == Slot(f, v);
      var j :| 0 <= j < |fs| && fs[j] == Slot(f, w);
      if i < j {
        TwoPositions(FieldsOf(fs), i, j, f);
      } else if j < i {
        TwoPositions(FieldsOf(fs), j, i, f);
      }
    }
  }

  /** The fields of a field list made of six blocks are those of the blocks together. */
  lemma FieldsJoin(a: seq<Slot>, b: seq<Slot>, c: seq<Slot>, d: seq<Slot>, e: seq<Slot>, g: seq<Slot>)
    ensures multiset(FieldsOf(a + b + c + d + e + g))
         == multiset(FieldsOf(a)) + multiset(FieldsOf(b)) + multiset(FieldsOf(c)) + multiset(FieldsOf(d))
            + multiset(FieldsOf(e)) + multiset(FieldsOf(g))
  {
    FieldsOfAppend(a, b);
    FieldsOfAppend(a + b, c);
    FieldsOfAppend(a + b + c, d);
    FieldsOfAppend(a + b + c + d, e);
    FieldsOfAppend(a + b + c + d + e, g);
  }

  /** A field list made of six blocks lacks `f` when each block does. */
  lemma LacksJoin(a: seq<Slot>, b: seq<Slot>, c: seq<Slot>, d: seq<Slot>, e: seq<Slot>, g: seq<Slot>, f: Field)
    requires Lacks(a, f) && Lacks(b, f) && Lacks(c, f) && Lacks(d, f) && Lacks(e, f) && Lacks(g, f)
    ensures Lacks(a + b + c + d + e + g, f)
  {
  }

  /** `t` occurs in `s` starting at index `k`. */
  predicate OccursAt(s: string, t: string, k: int)
  {
    0 <= k <= |s| - |t| && s[k..k + |t|] == t
  }

  /** `t` occurs in `s` as a contiguous substring. */
  ghost predicate Contains(s: string, t: string)
  {
    exists k :: OccursAt(s, t, k)
  }

  lemma ContainsMiddle(a: string, t: string, b: string)
    ensures OccursAt(a + t + b, t, |a|)
    ensures Contains(a + t + b, t)
  {
    var s := a + t + b;
    assert s[|a|..|a| + |t|] == t;
    assert OccursAt(s, t, |a|);
  }

  /** Rendering is left to right: the segments of `a` come out before those of `b`. */
  lemma {:induction false} RenderSegsAppend(a: seq<Seg>, b: seq<Seg>)
    ensures RenderSegs(a + b) == RenderSegs(a) + RenderSegs(b)
  {
    if a == [] {
      assert a + b == b;
    } else {
      assert (a + b)[0] == a[0];
      assert (a + b)[1..] == a[1..] + b;
      RenderSegsAppend(a[1..], b);
    }
  }

  /** The value of segment `i` is literally part of the rendered text. */
  lemma SegmentRendered(d: Doc, i: nat)
    requires i < |d.segs|
    ensures Contains(Render(d), d.segs[i].slot.value)
  {
    var before, at, after := d.segs[..i], d.segs[i], d.segs[i + 1..];
    assert d.segs == before + ([at] + after);
    RenderSegsAppend(before, [at] + after);
    RenderSegsAppend([at], after);
    assert [at][1..] == [];
    var x, v, z := RenderSegs(before), at.slot.value, RenderSegs(after);
    assert Render(d) == x + (at.pre + v + z) + d.tail;
    ContainsWithin(x, at.pre, v, z, d.tail);
  }

  lemma ContainsWithin(x: string, y: string, t: string, z: string, w: string)
    ensures Contains(x + (y + t + z) + w, t)
  {
    var s, k := x + (y + t + z) + w, |x| + |y|;
    assert s[k..k + |t|] == t by {
      forall j | 0 <= j < |t| ensures s[k + j] == t[j] {
        assert (y + t + z)[|y| + j] == t[j];
      }
    }
    assert OccursAt(s, t, k);
  }

  /** A substring of a substring is a substring. */
  lemma ContainsTransitive(s: string, t: string, u: string)
    requires Contains(s, t) && Contains(t, u)
    ensures Contains(s, u)
  {
    var k1 :| OccursAt(s, t, k1);
    var k2 :| OccursAt(t, u, k2);
    assert s[k1 + k2..k1 + k2 + |u|] == u by {
      forall j | 0 <= j < |u| ensures s[k1 + k2 + j] == u[j] {
        assert s[k1..k1 + |t|][k2 + j] == t[k2 + j];
        assert t[k2..k2 + |u|][j] == u[j];
      }
    }
    assert OccursAt(s, u, k1 + k2);
  }

  /** Every value a document shows is literally part of its rendered text. */
  lemma ValueRendered(d: Doc, f: Field, v: string)
    requires Shows(Slots(d), f, v)
    ensures Contains(Render(d), v)
  {
    var fs := Slots(d);
    var i :| 0 <= i < |fs| && fs[i] == Slot(f, v);
    SegmentRendered(d, i);
  }
}
