/** The redactor of the audit log: it hides every leaf below a credential-like key and leaves the rest of the tree alone. */
module Audit {
  import opened Common
  import opened Json
  import RequestLog

  const FRAGMENTS := ["token", "secret", "password", "passwd", "authorization", "credential", "private"]
  const EXACT := ["apikey", "accesskey", "privatekey", "secretkey", "clientsecret", "authorization", "credential"]

  /** Lower-cased and trimmed, a key ending in `_key` or `-key`, or squeezed, one of the words; `monkey` is neither. */
  predicate SensitiveKey(key: string) {
    var lower := ToLower(TrimSpace(key));
    || lower == "key" || HasSuffix(lower, "_key") || HasSuffix(lower, "-key")
    || (exists i :: 0 <= i < |FRAGMENTS| && HasSuffix(Squeeze(lower), FRAGMENTS[i]))
    || Squeeze(lower) in EXACT
  }

  function Redact(v: Json, force: bool): Json
    decreases v
  {
    match v
    case Obj(fields) =>
      Obj(seq(|fields|, i requires 0 <= i < |fields| =>
            Field(fields[i].key, Redact(fields[i].value, force || SensitiveKey(fields[i].key)))))
    case Arr(items) => Arr(seq(|items|, i requires 0 <= i < |items| => Redact(items[i], force)))
    case _ => if force then RequestLog.REDACTED else v
  }

  // ---------- the tree told by its paths ----------

  function Children(v: Json): nat {
    match v case Obj(fields) => |fields| case Arr(items) => |items| case _ => 0
  }

  function Child(v: Json, i: nat): Json
    requires i < Children(v)
  {
    match v case Obj(fields) => fields[i].value case Arr(items) => items[i]
  }

  /** The value at the end of a path of positions. */
  function At(v: Json, path: seq<nat>): Option<Json>
    decreases |path|
  {
    if path == [] then Some(v)
    else if path[0] < Children(v) then At(Child(v, path[0]), path[1..])
    else None
  }

  /** Some entry on the path has a sensitive key. */
  predicate UnderSensitiveKey(v: Json, path: seq<nat>)
    decreases |path|
  {
    path != [] && path[0] < Children(v) &&
    ((v.Obj? && SensitiveKey(v.fields[path[0]].key)) || UnderSensitiveKey(Child(v, path[0]), path[1..]))
  }

  predicate Leaf(v: Json) {
    !v.Obj? && !v.Arr?
  }

  /** The same kind of node with the same keys in the same places. */
  ghost predicate SameNode(a: Json, b: Json) {
    if Leaf(a) then Leaf(b)
    else if a.Arr? then b.Arr? && |a.items| == |b.items|
    else b.Obj? && |a.fields| == |b.fields| && forall i :: 0 <= i < |a.fields| ==> a.fields[i].key == b.fields[i].key
  }

  /**
   Path by path: the redacted tree has the same nodes, keys and lengths as the original, a leaf is replaced if and only
   if it lies below a sensitive key (or everything is to be hidden), and every other leaf is untouched.
   */
  lemma {:induction false} RedactedAt(v: Json, force: bool, path: seq<nat>)
    ensures At(Redact(v, force), path).Some? <==> At(v, path).Some?
    ensures At(v, path).Some? ==>
              var before, after := At(v, path).value, At(Redact(v, force), path).value;
              && SameNode(before, after)
              && (Leaf(before) ==> after == if force || UnderSensitiveKey(v, path) then RequestLog.REDACTED else before)
    decreases |path|
  {
    if path != [] && path[0] < Children(v) {
      var i := path[0];
      var below := force || (v.Obj? && SensitiveKey(v.fields[i].key));
      assert Child(Redact(v, force), i) == Redact(Child(v, i), below);
      RedactedAt(Child(v, i), below, path[1..]);
    }
  }

  /** Redacting what is already redacted changes nothing, also when only part of it was asked for before. */
  lemma {:induction false} RedactIdempotent(v: Json, first: bool, again: bool)
    requires again ==> first
    ensures Redact(Redact(v, first), again) == Redact(v, first)
    decreases v
  {
    match v
    case Obj(fields) =>
      var once := Redact(v, first);
      forall i | 0 <= i < |fields| ensures Redact(once, again).fields[i] == once.fields[i] {
        var s := SensitiveKey(fields[i].key);
        RedactIdempotent(fields[i].value, first || s, again || s);
      }
      assert Redact(once, again).fields == once.fields;
    case Arr(items) =>
      var once := Redact(v, first);
      forall i | 0 <= i < |items| ensures Redact(once, again).items[i] == once.items[i] {
        RedactIdempotent(items[i], first, again);
      }
      assert Redact(once, again).items == once.items;
    case _ =>
  }

  /** Whether what is under the i-th child is to be hidden. */
  predicate Below(v: Json, i: nat, force: bool)
    requires i < Children(v)
  {
    force || (v.Obj? && SensitiveKey(v.fields[i].key))
  }

  ghost predicate SameShape(v: Json, w: Json)
    decreases v
  {
    SameNode(v, w) && forall i :: 0 <= i < Children(v) ==> SameShape(Child(v, i), Child(w, i))
  }

  /** The same tree, except for leaves below sensitive keys. */
  ghost predicate AgreeOutside(v: Json, w: Json)
    decreases v
  {
    && SameNode(v, w) && (Leaf(v) ==> v == w)
    && forall i :: 0 <= i < Children(v) ==>
         if Below(v, i, false) then SameShape(Child(v, i), Child(w, i)) else AgreeOutside(Child(v, i), Child(w, i))
  }

  /** Redaction never hides the node itself. */
  lemma NodeShows(v: Json, w: Json, force: bool)
    requires Redact(v, force) == Redact(w, force)
    ensures SameNode(v, w)
  {
    RedactedAt(v, force, []);
    RedactedAt(w, force, []);
    var a := Redact(v, force);
    if a.Obj? {
      forall i | 0 <= i < |v.fields| ensures v.fields[i].key == w.fields[i].key { assert a.fields[i].key == v.fields[i].key; }
    }
  }

  lemma ChildOfRedacted(v: Json, force: bool, i: nat)
    requires i < Children(v)
    ensures Children(Redact(v, force)) == Children(v)
    ensures Child(Redact(v, force), i) == Redact(Child(v, i), Below(v, i, force))
  {
  }

  /** A node is its keys and its children. */
  lemma SameNodeSameChildren(a: Json, b: Json)
    requires SameNode(a, b) && !Leaf(a) && forall i :: 0 <= i < Children(a) ==> Child(a, i) == Child(b, i)
    ensures a == b
  {
    if a.Arr? {
      forall i | 0 <= i < |a.items| ensures a.items[i] == b.items[i] { assert Child(a, i) == Child(b, i); }
    } else {
      forall i | 0 <= i < |a.fields| ensures a.fields[i] == b.fields[i] { assert Child(a, i) == Child(b, i); }
      assert a.fields == b.fields;
    }
  }

  lemma {:induction false} SameChildren(v: Json, w: Json, force: bool)
    requires SameNode(v, w) && !Leaf(v)
    ensures Redact(v, force) == Redact(w, force)
            <==> forall i :: 0 <= i < Children(v) ==>
                   Redact(Child(v, i), Below(v, i, force)) == Redact(Child(w, i), Below(v, i, force))
  {
    var a, b := Redact(v, force), Redact(w, force);
    RedactedAt(v, force, []);
    RedactedAt(w, force, []);
    forall i | 0 <= i < Children(v)
      ensures Child(a, i) == Redact(Child(v, i), Below(v, i, force)) && Child(b, i) == Redact(Child(w, i), Below(v, i, force))
    {
      ChildOfRedacted(v, force, i);
      ChildOfRedacted(w, force, i);
    }
    if forall i :: 0 <= i < Children(v) ==> Redact(Child(v, i), Below(v, i, force)) == Redact(Child(w, i), Below(v, i, force)) {
      SameNodeSameChildren(a, b);
    }
  }

  lemma {:induction false} ForcedIffSameShape(v: Json, w: Json)
    ensures Redact(v, true) == Redact(w, true) <==> SameShape(v, w)
    decreases v
  {
    if SameNode(v, w) && !Leaf(v) {
      forall i | 0 <= i < Children(v)
        ensures Redact(Child(v, i), true) == Redact(Child(w, i), true) <==> SameShape(Child(v, i), Child(w, i))
      {
        ForcedIffSameShape(Child(v, i), Child(w, i));
      }
      SameChildren(v, w, true);
    } else if Redact(v, true) == Redact(w, true) {
      NodeShows(v, w, true);
    }
  }

  /**
   What the audit log reveals, exactly: two snapshots are stored as the same row if and only if they have the same shape
   and differ at most in leaves below sensitive keys. Nothing else is lost, and nothing below such a key is kept.
   */
  lemma {:induction false} SameRowIff(v: Json, w: Json)
    ensures Redact(v, false) == Redact(w, false) <==> AgreeOutside(v, w)
    decreases v
  {
    if SameNode(v, w) && !Leaf(v) {
      forall i | 0 <= i < Children(v)
        ensures Redact(Child(v, i), Below(v, i, false)) == Redact(Child(w, i), Below(v, i, false))
                <==> if Below(v, i, false) then SameShape(Child(v, i), Child(w, i)) else AgreeOutside(Child(v, i), Child(w, i))
      {
        if Below(v, i, false) { ForcedIffSameShape(Child(v, i), Child(w, i)); } else { SameRowIff(Child(v, i), Child(w, i)); }
      }
      SameChildren(v, w, false);
    } else if Redact(v, false) == Redact(w, false) {
      NodeShows(v, w, false);
    }
  }
}
