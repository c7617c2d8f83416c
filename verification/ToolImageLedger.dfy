/**
 The per-agent ledger of tool-result images, src/tool-image-ledger.ts: which
 images' bytes it holds, and which block each ref it minted names.
 */
module ToolImageLedger {
  import opened Options

  /** The block an image came from. */
  datatype Key = Key(toolCallId: string, blockIndex: nat)

  /** A minted ref, its block, and its bytes. */
  datatype Image = Image(ref: nat, key: Key, data: string)

  datatype Lookup = Retained(image: Image) | Evicted(key: Key) | UnknownRef

  function HeldChars(images: seq<Image>): nat {
    if images == [] then 0 else HeldChars(images[..|images| - 1]) + |images[|images| - 1].data|
  }

  predicate Fits(images: seq<Image>, maxChars: nat, maxEntries: nat) {
    |images| <= maxEntries && HeldChars(images) <= maxChars
  }

  /** The newest images that fit together, oldest first. */
  function NewestThatFit(images: seq<Image>, maxChars: nat, maxEntries: nat): seq<Image> {
    if Fits(images, maxChars, maxEntries) then images
    else if images == [] then []
    else NewestThatFit(images[1..], maxChars, maxEntries)
  }

  /** The images minted that the ledger's budget could hold at all. */
  function Holdable(minted: seq<Image>, maxChars: nat): seq<Image> {
    if minted == [] then []
    else
      var n := |minted| - 1;
      Holdable(minted[..n], maxChars) + if |minted[n].data| <= maxChars then [minted[n]] else []
  }

  lemma {:induction false} HeldOfTwo(a: seq<Image>, b: seq<Image>)
    ensures HeldChars(a + b) == HeldChars(a) + HeldChars(b)
  {
    if b == [] {
      assert a + b == a;
    } else {
      assert (a + b)[..|a + b| - 1] == a + b[..|b| - 1];
      HeldOfTwo(a, b[..|b| - 1]);
    }
  }

  lemma HeldFirst(images: seq<Image>)
    requires images != []
    ensures HeldChars(images) == |images[0].data| + HeldChars(images[1..])
  {
    assert images == [images[0]] + images[1..];
    HeldOfTwo([images[0]], images[1..]);
    assert HeldChars([images[0]]) == HeldChars([images[0]][..0]) + |images[0].data|;
  }

  /**
   What no longer fits never fits again with more after it, so evicting as images come keeps the newest that fit of all
   of them.
   */
  lemma {:induction false} EvictingAsTheyCome(images: seq<Image>, x: Image, maxChars: nat, maxEntries: nat)
    ensures NewestThatFit(NewestThatFit(images, maxChars, maxEntries) + [x], maxChars, maxEntries)
      == NewestThatFit(images + [x], maxChars, maxEntries)
  {
    if !Fits(images, maxChars, maxEntries) && images != [] {
      EvictingAsTheyCome(images[1..], x, maxChars, maxEntries);
      HeldOfTwo(images, [x]);
      assert (images + [x])[1..] == images[1..] + [x];
      assert !Fits(images + [x], maxChars, maxEntries);
    }
  }

  /** The newest that fit are a suffix, and one image more would not fit. */
  lemma {:induction false} NewestAreTheMost(images: seq<Image>, maxChars: nat, maxEntries: nat)
    ensures
      var held := NewestThatFit(images, maxChars, maxEntries);
      && |held| <= |images| && held == images[|images| - |held|..]
      && Fits(held, maxChars, maxEntries)
      && (|held| < |images| ==> !Fits(images[|images| - |held| - 1..], maxChars, maxEntries))
    decreases |images|
  {
    if !Fits(images, maxChars, maxEntries) && images != [] {
      NewestAreTheMost(images[1..], maxChars, maxEntries);
      var held := NewestThatFit(images[1..], maxChars, maxEntries);
      assert images[1..][|images| - 1 - |held|..] == images[|images| - |held|..];
      if |held| < |images| - 1 {
        assert images[1..][|images| - 1 - |held| - 1..] == images[|images| - |held| - 1..];
      } else {
        assert images[|images| - |held| - 1..] == images;
      }
    }
  }

  datatype Provenance = Provenance(ref: nat, key: Key)

  predicate Other(a: Provenance, b: Provenance) {
    a.ref < b.ref && a.key != b.key
  }

  ghost predicate RefsAreOrder(minted: seq<Image>) {
    forall i | 0 <= i < |minted| :: minted[i].ref == i + 1
  }

  /**
   The provenance held is that of the newest images minted, one record to a block, and each block's ref is its record's.
   */
  ghost predicate ProvenanceOk(minted: seq<Image>, issued: seq<Provenance>, refByKey: map<Key, nat>) {
    && |issued| <= |minted|
    && (forall i | 0 <= i < |issued| ::
      issued[i].ref == |minted| - |issued| + i + 1 && issued[i].key == minted[|minted| - |issued| + i].key)
    && (forall i, j {:trigger Other(issued[i], issued[j])} | 0 <= i < j < |issued| :: Other(issued[i], issued[j]))
    && (forall i | 0 <= i < |issued| :: issued[i].key in refByKey && refByKey[issued[i].key] == issued[i].ref)
    && (forall k | k in refByKey :: exists i :: 0 <= i < |issued| && issued[i] == Provenance(refByKey[k], k))
  }

  lemma ProvenanceAdded(minted: seq<Image>, issued: seq<Provenance>, refByKey: map<Key, nat>, x: Image)
    requires ProvenanceOk(minted, issued, refByKey) && x.key !in refByKey && x.ref == |minted| + 1
    ensures ProvenanceOk(minted + [x], issued + [Provenance(x.ref, x.key)], refByKey[x.key := x.ref])
  {
    var refs, longer := refByKey[x.key := x.ref], issued + [Provenance(x.ref, x.key)];
    forall i, j | 0 <= i < j < |longer| ensures Other(longer[i], longer[j]) {
      if j < |issued| { assert Other(issued[i], issued[j]); }
    }
    forall k | k in refs ensures exists i :: 0 <= i < |longer| && longer[i] == Provenance(refs[k], k) {
      if k == x.key {
        assert longer[|issued|] == Provenance(refs[k], k);
      } else {
        var i :| 0 <= i < |issued| && issued[i] == Provenance(refByKey[k], k);
        assert longer[i] == Provenance(refs[k], k);
      }
    }
  }

  lemma ProvenanceTrimmed(minted: seq<Image>, issued: seq<Provenance>, refByKey: map<Key, nat>)
    requires ProvenanceOk(minted, issued, refByKey) && issued != []
    ensures ProvenanceOk(minted, issued[1..], refByKey - {issued[0].key})
  {
    var refs, rest, n := refByKey - {issued[0].key}, issued[1..], |issued| - 1;
    forall i, j | 0 <= i < j < n ensures Other(rest[i], rest[j]) { assert Other(issued[i + 1], issued[j + 1]); }
    forall i | 0 <= i < n
      ensures rest[i].ref == |minted| - n + i + 1 && rest[i].key == minted[|minted| - n + i].key
        && rest[i].key in refs && refs[rest[i].key] == rest[i].ref
    {
      assert Other(issued[0], issued[i + 1]) && issued[i + 1].key in refByKey;
    }
    RefsTrimmed(issued, refByKey);
  }

  lemma RefsTrimmed(issued: seq<Provenance>, refByKey: map<Key, nat>)
    requires issued != []
      && forall k | k in refByKey :: exists i :: 0 <= i < |issued| && issued[i] == Provenance(refByKey[k], k)
    ensures var refs, rest := refByKey - {issued[0].key}, issued[1..];
      forall k | k in refs :: exists i :: 0 <= i < |rest| && rest[i] == Provenance(refs[k], k)
  {
    var refs, rest := refByKey - {issued[0].key}, issued[1..];
    forall k | k in refs ensures exists i :: 0 <= i < |rest| && rest[i] == Provenance(refs[k], k) {
      var i :| 0 <= i < |issued| && issued[i] == Provenance(refByKey[k], k);
      assert rest[i - 1] == Provenance(refs[k], k);
    }
  }

  lemma Minted(minted: seq<Image>, x: Image, maxChars: nat)
    requires RefsAreOrder(minted) && x.ref == |minted| + 1
    ensures RefsAreOrder(minted + [x])
    ensures Holdable(minted + [x], maxChars) ==
      if |x.data| <= maxChars then Holdable(minted, maxChars) + [x] else Holdable(minted, maxChars)
  {
    assert (minted + [x])[..|minted|] == minted;
  }

  function Least(a: nat, b: nat): nat { if a < b then a else b }

  class ToolImageLedger {
    const maxChars: nat
    const maxEntries: nat
    var nextSeq: nat
    /** Oldest first; eviction pops from the front. */
    var retained: seq<Image>
    /** Provenance of the refs issued, oldest first, bytes or not. */
    var issued: seq<Provenance>
    var refByKey: map<Key, nat>
    var heldChars: nat
    /** Every image ever minted a ref, by its ref. */
    ghost var minted: seq<Image>

    function Keep(): nat {
      if maxEntries * 4 < 256 then 256 else maxEntries * 4
    }

    ghost predicate Valid()
      reads this
    {
      && heldChars == HeldChars(retained)
      && retained == NewestThatFit(Holdable(minted, maxChars), maxChars, maxEntries)
      && nextSeq == |minted| + 1 && RefsAreOrder(minted)
      && |issued| == Least(|minted|, Keep()) && ProvenanceOk(minted, issued, refByKey)
    }

    constructor (maxChars: nat, maxEntries: nat)
      ensures Valid() && this.maxChars == maxChars && this.maxEntries == maxEntries && minted == []
    {
      this.maxChars, this.maxEntries := maxChars, maxEntries;
      nextSeq, retained, issued, refByKey, heldChars := 1, [], [], map[], 0;
      minted := [];
    }

    /**
     The bytes behind a ref, where they are still held: those it was minted for, never another's. Otherwise its block,
     where it is among the newest minted that provenance is kept of.
     */
    method LookUp(ref: nat) returns (found: Lookup)
      requires Valid()
      ensures match found
        case Retained(image) => image.ref == ref && 0 < ref <= |minted| && image == minted[ref - 1]
        case Evicted(key) => 0 < ref <= |minted| < ref + Keep() && key == minted[ref - 1].key
        case UnknownRef => ref == 0 || |minted| < ref || ref + Keep() <= |minted|
      ensures !found.Retained? ==> forall x | x in retained :: x.ref != ref
    {
      for i := 0 to |retained|
        invariant forall k | 0 <= k < i :: retained[k].ref != ref
      {
        if retained[i].ref == ref {
          HeldIsMinted(minted, maxChars, maxEntries, retained[i]);
          return Retained(retained[i]);
        }
      }
      for i := 0 to |issued|
        invariant forall k | 0 <= k < i :: issued[k].ref != ref
      {
        if issued[i].ref == ref { return Evicted(issued[i].key); }
      }
      assert |minted| - |issued| < ref <= |minted| ==> issued[ref - 1 - (|minted| - |issued|)].ref == ref;
      return UnknownRef;
    }

    /**
     Retains one image of a tool result: the ref its block already has while the record of that is held, and otherwise a
     new one, never used before.
     */
    method Retain(key: Key, data: string) returns (ref: nat)
      requires Valid()
      modifies this
      ensures Valid() && key in refByKey && refByKey[key] == ref
      ensures old(key in refByKey) ==> ref == old(refByKey)[key] && minted == old(minted) && retained == old(retained)
      ensures old(key !in refByKey) ==> ref == |minted| && minted == old(minted) + [Image(ref, key, data)]
    {
      hide NewestThatFit, ProvenanceOk, HeldChars, Holdable, RefsAreOrder, Fits;
      if key in refByKey { return refByKey[key]; }
      ref := nextSeq;
      nextSeq := nextSeq + 1;
      var image := Image(ref, key, data);
      ProvenanceAdded(minted, issued, refByKey, image);
      Minted(minted, image, maxChars);
      EvictingAsTheyCome(Holdable(minted, maxChars), image, maxChars, maxEntries);
      minted := minted + [image];
      refByKey := refByKey[key := ref];
      issued := issued + [Provenance(ref, key)];
      if |data| <= maxChars { Hold(image); }
      TrimProvenance(key, ref);
    }

    method Hold(image: Image)
      requires heldChars == HeldChars(retained)
      modifies this`retained, this`heldChars
      ensures heldChars == HeldChars(retained)
        && retained == NewestThatFit(old(retained) + [image], maxChars, maxEntries)
    {
      HeldOfTwo(retained, [image]);
      assert [image][..0] == [] && HeldChars([image]) == HeldChars([]) + |image.data|;
      retained := retained + [image];
      heldChars := heldChars + |image.data|;
      EvictOverBudget();
    }

    method EvictOverBudget()
      requires heldChars == HeldChars(retained)
      modifies this`retained, this`heldChars
      ensures heldChars == HeldChars(retained) && retained == NewestThatFit(old(retained), maxChars, maxEntries)
    {
      while retained != [] && !(|retained| <= maxEntries && heldChars <= maxChars)
        invariant heldChars == HeldChars(retained)
        invariant NewestThatFit(retained, maxChars, maxEntries) == NewestThatFit(old(retained), maxChars, maxEntries)
        decreases |retained|
      {
        HeldFirst(retained);
        heldChars := heldChars - |retained[0].data|;
        retained := retained[1..];
      }
    }

    /** Provenance is bounded: its oldest records go, and their blocks' refs with them; the newest, just made, stays. */
    method TrimProvenance(ghost key: Key, ghost ref: nat)
      requires ProvenanceOk(minted, issued, refByKey) && issued != [] && issued[|issued| - 1] == Provenance(ref, key)
      modifies this`issued, this`refByKey
      ensures ProvenanceOk(minted, issued, refByKey) && |issued| == Least(old(|issued|), Keep())
      ensures key in refByKey && refByKey[key] == ref
    {
      while |issued| > Keep()
        invariant |issued| >= Least(old(|issued|), Keep()) && |issued| <= old(|issued|)
        invariant ProvenanceOk(minted, issued, refByKey) && issued != [] && issued[|issued| - 1] == Provenance(ref, key)
        decreases |issued|
      {
        ProvenanceTrimmed(minted, issued, refByKey);
        refByKey := refByKey - {issued[0].key};
        issued := issued[1..];
      }
    }
  }

  /** An image held is the one its ref was minted for. */
  lemma HeldIsMinted(minted: seq<Image>, maxChars: nat, maxEntries: nat, x: Image)
    requires x in NewestThatFit(Holdable(minted, maxChars), maxChars, maxEntries) && RefsAreOrder(minted)
    ensures 0 < x.ref <= |minted| && x == minted[x.ref - 1]
  {
    hide Holdable, NewestThatFit, Fits;
    NewestAreTheMost(Holdable(minted, maxChars), maxChars, maxEntries);
    HoldableAreMinted(minted, maxChars);
    assert x in minted;
  }

  /** What the budget could hold is every image minted that alone doesn't pass it, in the order minted. */
  lemma {:induction false} HoldableAreMinted(minted: seq<Image>, maxChars: nat)
    requires RefsAreOrder(minted)
    ensures forall x :: x in Holdable(minted, maxChars) <==> x in minted && |x.data| <= maxChars
    ensures forall i, j | 0 <= i < j < |Holdable(minted, maxChars)| ::
      Holdable(minted, maxChars)[i].ref < Holdable(minted, maxChars)[j].ref
  {
    if minted != [] {
      var n := |minted| - 1;
      var rest, out := Holdable(minted[..n], maxChars), Holdable(minted, maxChars);
      HoldableAreMinted(minted[..n], maxChars);
      assert minted == minted[..n] + [minted[n]];
      forall i, j | 0 <= i < j < |out| ensures out[i].ref < out[j].ref { assert out[i] in rest; }
    }
  }
}
