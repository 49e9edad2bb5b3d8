/** What the idempotency store keeps of a response body (internal/middleware/idempotency.go). */
module Redaction {
  import opened Common

  datatype Json =
    | Atom(text: string)
    | Arr(items: seq<Json>)
    | Obj(fields: map<string, Json>)

  const REDACTED: set<string> :=
    {"client_secret", "secret", "otpauth_uri", "recovery_codes", "initial_access_token"}

  // ----- The document redact leaves -----

  function Redact(v: Json): Json {
    match v
    case Atom(_) => v
    case Arr(items) => Arr(seq(|items|, i requires 0 <= i < |items| => Redact(items[i])))
    case Obj(fields) => Obj(map k | k in fields && k !in REDACTED :: Redact(fields[k]))
  }

  /** Whether some object in v, at any depth, has a redacted field. */
  predicate Leaks(v: Json) {
    match v
    case Atom(_) => false
    case Arr(items) => exists i :: 0 <= i < |items| && Leaks(items[i])
    case Obj(fields) => exists k :: k in fields && (k in REDACTED || Leaks(fields[k]))
  }

  // ----- Reading a document by a path -----

  datatype Step = Index(i: nat) | Field(name: string)

  function Lookup(v: Json, path: seq<Step>): Option<Json>
    decreases |path|
  {
    if path == [] then Some(v)
    else
      match (v, path[0])
      case (Arr(items), Index(i)) => if i < |items| then Lookup(items[i], path[1..]) else None
      case (Obj(fields), Field(name)) => if name in fields then Lookup(fields[name], path[1..]) else None
      case _ => None
  }

  predicate ThroughRedacted(path: seq<Step>) {
    exists i :: 0 <= i < |path| && path[i].Field? && path[i].name in REDACTED
  }

  /** Nothing is left below a redacted field, and everything else is where it was. */
  lemma {:induction false} RedactKeepsTheRest(v: Json, path: seq<Step>)
    ensures Lookup(Redact(v), path) ==
      if ThroughRedacted(path) || Lookup(v, path).None? then None else Some(Redact(Lookup(v, path).value))
    decreases |path|
  {
    if path != [] {
      var rest := path[1..];
      assert ThroughRedacted(path) <==> (path[0].Field? && path[0].name in REDACTED) || ThroughRedacted(rest) by {
        assert forall i :: 0 <= i < |rest| ==> rest[i] == path[i + 1];
        if i :| 0 <= i < |path| && path[i].Field? && path[i].name in REDACTED {
          if i > 0 {
            assert rest[i - 1] == path[i];
          }
        }
      }
      match (v, path[0])
      case (Arr(items), Index(i)) =>
        if i < |items| {
          RedactKeepsTheRest(items[i], rest);
        }
      case (Obj(fields), Field(name)) =>
        if name in fields {
          RedactKeepsTheRest(fields[name], rest);
        }
      case _ =>
    }
  }

  /** No redacted field is left, at any depth. */
  lemma {:induction false} RedactLeavesNoLeak(v: Json)
    ensures !Leaks(Redact(v))
  {
    match v
    case Atom(_) =>
    case Arr(items) =>
      forall i | 0 <= i < |items| ensures !Leaks(Redact(items[i])) {
        RedactLeavesNoLeak(items[i]);
      }
    case Obj(fields) =>
      forall k | k in fields ensures !Leaks(Redact(fields[k])) {
        RedactLeavesNoLeak(fields[k]);
      }
  }

  /** A document changes exactly when it has a redacted field. */
  lemma {:induction false} RedactChangesLeaks(v: Json)
    ensures Redact(v) != v <==> Leaks(v)
  {
    match v
    case Atom(_) =>
    case Arr(items) =>
      forall i | 0 <= i < |items| ensures Redact(items[i]) != items[i] <==> Leaks(items[i]) {
        RedactChangesLeaks(items[i]);
      }
      if !Leaks(v) {
        assert Redact(v).items == items;
      } else {
        var i :| 0 <= i < |items| && Leaks(items[i]);
        assert Redact(v).items[i] != items[i];
      }
    case Obj(fields) =>
      forall k | k in fields ensures Redact(fields[k]) != fields[k] <==> Leaks(fields[k]) {
        RedactChangesLeaks(fields[k]);
      }
      if !Leaks(v) {
        assert Redact(v).fields == fields;
      } else {
        var k :| k in fields && (k in REDACTED || Leaks(fields[k]));
        assert k in Redact(v).fields ==> Redact(v).fields[k] != fields[k];
      }
  }

  lemma RedactIsIdempotent(v: Json)
    ensures Redact(Redact(v)) == Redact(v)
  {
  }

  // ----- The loop of redact -----

  /** The fields the loop has yet to visit are as they were; the others are redacted. */
  ghost predicate Halfway(fields: map<string, Json>, node: map<string, Json>, visited: set<string>) {
    && (forall k :: k in node <==> k in fields && !(k in visited && k in REDACTED))
    && (forall k :: k in node ==> node[k] == if k in visited then Redact(fields[k]) else fields[k])
  }

  /** redact: the document after the deletions, and whether there were any. */
  method RedactInPlace(v: Json) returns (out: Json, found: bool)
    ensures out == Redact(v)
    ensures found <==> Leaks(v)
    decreases v
  {
    match v
    case Atom(_) =>
      return v, false;
    case Arr(items) =>
      var node := items;
      found := false;
      for i := 0 to |items|
        invariant |node| == |items|
        invariant forall j :: 0 <= j < i ==> node[j] == Redact(items[j])
        invariant forall j :: i <= j < |items| ==> node[j] == items[j]
        invariant found <==> exists j :: 0 <= j < i && Leaks(items[j])
      {
        var child, inChild := RedactInPlace(items[i]);
        node := node[i := child];
        found := inChild || found;
      }
      assert node == Redact(v).items;
      return Arr(node), found;
    case Obj(fields) =>
      var node := fields;
      var left := fields.Keys;
      found := false;
      while left != {}
        invariant left <= fields.Keys
        invariant Halfway(fields, node, fields.Keys - left)
        invariant found <==> exists k :: k in fields && k !in left && (k in REDACTED || Leaks(fields[k]))
        decreases |left|
      {
        var k :| k in left;
        left := left - {k};
        if k in REDACTED {
          node := node - {k};
          found := true;
        } else {
          var child, inChild := RedactInPlace(fields[k]);
          node := node[k := child];
          found := inChild || found;
        }
      }
      assert node == Redact(v).fields;
      return Obj(node), found;
  }

  // ----- Bodies -----

  /** A response body: text that is no JSON, or one of the spellings of a JSON document, of which
      spelling 0 is the one json.Marshal writes. */
  datatype Body = Text(text: string) | JsonText(doc: Json, spelling: nat)

  /** What redactResponse stores of a body. */
  function RedactBody(b: Body): (r: Body)
    ensures r.JsonText? ==> b.JsonText? && r.doc == Redact(b.doc)
    ensures r == b <==> b.Text? || !Leaks(b.doc)
  {
    if b.JsonText? then
      RedactChangesLeaks(b.doc);
      if Leaks(b.doc) then JsonText(Redact(b.doc), 0) else b
    else b
  }

  /** redactResponse: bodies that are no JSON, or hold no redacted field, are stored as they are. */
  method RedactResponse(b: Body) returns (r: Body)
    ensures r == RedactBody(b)
  {
    if b.Text? {
      return b;
    }
    var doc, found := RedactInPlace(b.doc);
    if !found {
      return b;
    }
    return JsonText(doc, 0);
  }

  /** Nothing redacted is stored, and storing what was stored changes nothing. */
  lemma StoredBodyIsClean(b: Body)
    ensures RedactBody(b).JsonText? ==> !Leaks(RedactBody(b).doc)
    ensures RedactBody(RedactBody(b)) == RedactBody(b)
  {
    if b.JsonText? {
      RedactLeavesNoLeak(b.doc);
    }
  }
}
