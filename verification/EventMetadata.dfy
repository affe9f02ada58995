/**
 Event metadata: trees that are too deep or lists that are too long are replaced by digests before the supervisor
 sees them.
 */
module EventMetadata {
  /** A JSON tree. `DigestOf` is the bare text of an injective digest, `Marked` the same text behind "sha256:";
      objects keep their fields in order. */
  datatype Json =
    | Scalar(id: nat)
    | Number(value: int)
    | DigestOf(tree: Json)
    | Marked(tree: Json)
    | Arr(items: seq<Json>)
    | Obj(fields: seq<Field>)

  datatype Field = Field(key: string, value: Json)

  const LONGEST := 32
  const DEEPEST := 3

  /** `compact`, for a value at layer `depth`. */
  function Compact(item: Json, depth: nat): Json {
    match item
    case Arr(items) =>
      if items != [] && depth >= DEEPEST then Marked(item)
      else if |items| > LONGEST then Obj([Field("item_count", Number(|items|)), Field("items_sha256", DigestOf(item))])
      else Arr(seq(|items|, i requires 0 <= i < |items| => Compact(items[i], depth + 1)))
    case Obj(fields) =>
      if fields != [] && depth >= DEEPEST then Marked(item)
      else Obj(seq(|fields|, i requires 0 <= i < |fields| => Field(fields[i].key, Compact(fields[i].value, depth + 1))))
    case _ => item
  }

  /** `_bounded_event_metadata`: the top object is layer 0. */
  function Bounded(fields: seq<Field>): seq<Field> {
    seq(|fields|, i requires 0 <= i < |fields| => Field(fields[i].key, Compact(fields[i].value, 1)))
  }

  /** The bounds: a value at layer `depth` sits above layer 4, and so does everything in it; no list is too long. */
  predicate Fits(item: Json, depth: nat) {
    && depth <= DEEPEST
    && match item
       case Arr(items) => |items| <= LONGEST && forall i :: 0 <= i < |items| ==> Fits(items[i], depth + 1)
       case Obj(fields) => forall i :: 0 <= i < |fields| ==> Fits(fields[i].value, depth + 1)
       case _ => true
  }

  predicate AllFit(fields: seq<Field>) {
    forall i :: 0 <= i < |fields| ==> Fits(fields[i].value, 1)
  }

  lemma {:induction false} CompactFits(item: Json, depth: nat)
    requires depth <= DEEPEST
    ensures Fits(Compact(item, depth), depth)
  {
    match item
    case Arr(items) =>
      if depth < DEEPEST && |items| <= LONGEST {
        forall i | 0 <= i < |items| ensures Fits(Compact(items[i], depth + 1), depth + 1) {
          CompactFits(items[i], depth + 1);
        }
      }
    case Obj(fields) =>
      if depth < DEEPEST {
        forall i | 0 <= i < |fields| ensures Fits(Compact(fields[i].value, depth + 1), depth + 1) {
          CompactFits(fields[i].value, depth + 1);
        }
      }
    case _ =>
  }

  lemma {:induction false} FittingIsKept(item: Json, depth: nat)
    requires Fits(item, depth)
    ensures Compact(item, depth) == item
  {
    match item
    case Arr(items) =>
      assert items != [] ==> Fits(items[0], depth + 1);
      forall i | 0 <= i < |items| ensures Compact(items[i], depth + 1) == items[i] {
        FittingIsKept(items[i], depth + 1);
      }
      assert seq(|items|, i requires 0 <= i < |items| => Compact(items[i], depth + 1)) == items;
    case Obj(fields) =>
      assert fields != [] ==> Fits(fields[0].value, depth + 1);
      forall i | 0 <= i < |fields| ensures Compact(fields[i].value, depth + 1) == fields[i].value {
        FittingIsKept(fields[i].value, depth + 1);
      }
      assert seq(|fields|, i requires 0 <= i < |fields| => Field(fields[i].key, Compact(fields[i].value, depth + 1))) ==
               fields;
    case _ =>
  }

  /** Compaction always meets the bounds, leaves metadata alone exactly if it met them already, and is idempotent. */
  lemma BoundedExactly(fields: seq<Field>)
    ensures AllFit(Bounded(fields))
    ensures Bounded(fields) == fields <==> AllFit(fields)
    ensures Bounded(Bounded(fields)) == Bounded(fields)
  {
    forall i | 0 <= i < |fields| ensures Fits(Bounded(fields)[i].value, 1) { CompactFits(fields[i].value, 1); }
    if AllFit(fields) { KeptIfFitting(fields); }
    KeptIfFitting(Bounded(fields));
  }

  lemma KeptIfFitting(fields: seq<Field>)
    requires AllFit(fields)
    ensures Bounded(fields) == fields
  {
    forall i | 0 <= i < |fields| ensures Bounded(fields)[i] == fields[i] { FittingIsKept(fields[i].value, 1); }
  }

  // ----- What stands for what -----

  /** `r` stands for `item`: as it is, as its digest, as the summary with its length and digest, or part by part, with
      every field under its own name. */
  predicate StandsFor(r: Json, item: Json)
    decreases item
  {
    || r == item
    || r == Marked(item)
    || (item.Arr? &&
        r == Obj([Field("item_count", Number(|item.items|)), Field("items_sha256", DigestOf(item))]))
    || (item.Arr? && r.Arr? && |r.items| == |item.items| &&
        forall i :: 0 <= i < |item.items| ==> StandsFor(r.items[i], item.items[i]))
    || (item.Obj? && r.Obj? && |r.fields| == |item.fields| &&
        forall i :: 0 <= i < |item.fields| ==>
            r.fields[i].key == item.fields[i].key && StandsFor(r.fields[i].value, item.fields[i].value))
  }

  lemma {:induction false} CompactStandsFor(item: Json, depth: nat)
    ensures StandsFor(Compact(item, depth), item)
    decreases item
  {
    var c := Compact(item, depth);
    match item
    case Arr(items) =>
      if c.Arr? {
        forall i | 0 <= i < |items| ensures StandsFor(c.items[i], items[i]) { CompactStandsFor(items[i], depth + 1); }
      }
    case Obj(fields) =>
      if c.Obj? {
        forall i | 0 <= i < |fields| ensures StandsFor(c.fields[i].value, fields[i].value) {
          CompactStandsFor(fields[i].value, depth + 1);
        }
      }
    case _ =>
  }

  // ----- Nothing is confused -----

  /** No digest occurs in the tree itself. */
  predicate Plain(item: Json) {
    match item
    case DigestOf(_) => false
    case Marked(_) => false
    case Arr(items) => forall i :: 0 <= i < |items| ==> Plain(items[i])
    case Obj(fields) => forall i :: 0 <= i < |fields| ==> Plain(fields[i].value)
    case _ => true
  }

  /** Different facts stay different: compaction is injective on trees that hold no digests of their own. */
  lemma {:induction false} CompactTellsApart(a: Json, b: Json, depth: nat)
    requires Plain(a) && Plain(b) && Compact(a, depth) == Compact(b, depth)
    ensures a == b
  {
    var c := Compact(a, depth);
    if a.Arr? && b.Arr? && c.Arr? {
      assert |a.items| == |c.items| == |b.items|;
      forall i | 0 <= i < |a.items| ensures a.items[i] == b.items[i] {
        assert c.items[i] == Compact(a.items[i], depth + 1) == Compact(b.items[i], depth + 1);
        CompactTellsApart(a.items[i], b.items[i], depth + 1);
      }
    } else if a.Obj? && b.Obj? && c.Obj? {
      assert |a.fields| == |c.fields| == |b.fields|;
      forall i | 0 <= i < |a.fields| ensures a.fields[i] == b.fields[i] {
        assert c.fields[i] == Field(a.fields[i].key, Compact(a.fields[i].value, depth + 1));
        assert c.fields[i] == Field(b.fields[i].key, Compact(b.fields[i].value, depth + 1));
        CompactTellsApart(a.fields[i].value, b.fields[i].value, depth + 1);
      }
    } else if a.Arr? && b.Obj? && c.Obj? {
      NotASummary(b, a, depth);
    } else if a.Obj? && b.Arr? && c.Obj? {
      NotASummary(a, b, depth);
    }
  }

  lemma NoBareDigest(item: Json, depth: nat)
    requires Plain(item)
    ensures !Compact(item, depth).DigestOf?
  {
  }

  /** A plain object is not compacted to the summary of a list. */
  lemma NotASummary(whole: Json, list: Json, depth: nat)
    requires whole.Obj? && Plain(whole) && Compact(whole, depth).Obj? && list.Arr?
    ensures Compact(whole, depth) != Compact(list, depth)
  {
    forall i | 0 <= i < |whole.fields| ensures !Compact(whole, depth).fields[i].value.DigestOf? {
      NoBareDigest(whole.fields[i].value, depth + 1);
    }
    if Compact(list, depth).Obj? {
      assert Compact(list, depth).fields[1].value.DigestOf?;
    }
  }
}
