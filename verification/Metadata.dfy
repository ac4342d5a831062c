// What the audit log keeps of a record's metadata (sanitizeMetadata in audit.service.ts).
module Metadata {

  // A JavaScript value; Foreign is one that JSON does not have, with its String(value).
  datatype Meta =
    | Null | Bool(b: bool) | Num(n: real) | Str(s: string) | Foreign(text: string)
    | Arr(items: seq<Meta>) | Obj(fields: seq<(string, Meta)>)

  const MAX_DEPTH := 8
  const MAX_KEYS := 200
  const MAX_ITEMS := 100
  const MAX_TEXT := 2000
  const ELLIPSIS := "…"
  const REDACTED := Str("[REDACTED]")
  const TRUNCATED := Str("[TRUNCATED]")

  function Cut(s: string): string { if |s| > MAX_TEXT then s[..MAX_TEXT] + ELLIPSIS else s }

  // How many of n entries slice keeps.
  function Kept(n: nat, limit: nat): nat { if n <= limit then n else limit }

  // sensitive is the test of a key against the SENSITIVE_KEY pattern.
  function Sanitize(v: Meta, depth: nat, sensitive: string -> bool): Meta {
    if depth > MAX_DEPTH then TRUNCATED
    else match v
      case Str(s) => Str(Cut(s))
      case Arr(items) =>
        Arr(seq(Kept(|items|, MAX_ITEMS), i requires 0 <= i < |items| => Sanitize(items[i], depth + 1, sensitive)))
      case Obj(fields) =>
        Obj(seq(Kept(|fields|, MAX_KEYS), i requires 0 <= i < |fields| =>
          (fields[i].0, if sensitive(fields[i].0) then REDACTED else Sanitize(fields[i].1, depth + 1, sensitive))))
      case Foreign(text) => Str(text)
      case _ => v
  }

  // Bounded at every level, JSON only but for foreign text, and a redaction under every sensitive key.
  ghost predicate Safe(v: Meta, depth: nat, sensitive: string -> bool) {
    match v
    case Arr(items) =>
      depth <= MAX_DEPTH && |items| <= MAX_ITEMS
      && forall i :: 0 <= i < |items| ==> Safe(items[i], depth + 1, sensitive)
    case Obj(fields) =>
      && depth <= MAX_DEPTH && |fields| <= MAX_KEYS
      && forall i :: 0 <= i < |fields| ==>
           if sensitive(fields[i].0) then fields[i].1 == REDACTED else Safe(fields[i].1, depth + 1, sensitive)
    case Foreign(_) => false
    case _ => true
  }

  // Whatever the metadata, what is kept nests at most nine levels of containers, with at most 200 keys or 100 items
  // each, and nothing under a sensitive key.
  lemma {:induction false} NothingSensitiveIsKept(v: Meta, depth: nat, sensitive: string -> bool)
    ensures Safe(Sanitize(v, depth, sensitive), depth, sensitive)
  {
    if depth <= MAX_DEPTH {
      match v
      case Arr(items) =>
        forall i | 0 <= i < |items| ensures Safe(Sanitize(items[i], depth + 1, sensitive), depth + 1, sensitive) {
          NothingSensitiveIsKept(items[i], depth + 1, sensitive);
        }
      case Obj(fields) =>
        forall i | 0 <= i < |fields| ensures Safe(Sanitize(fields[i].1, depth + 1, sensitive), depth + 1, sensitive) {
          NothingSensitiveIsKept(fields[i].1, depth + 1, sensitive);
        }
      case _ =>
    }
  }

  // Every foreign value that is kept has a text that a second pass would not cut.
  ghost predicate ForeignFits(v: Meta, depth: nat, sensitive: string -> bool) {
    depth <= MAX_DEPTH ==>
      match v
      case Foreign(text) => Cut(text) == text
      case Arr(items) => forall i :: 0 <= i < Kept(|items|, MAX_ITEMS) ==> ForeignFits(items[i], depth + 1, sensitive)
      case Obj(fields) =>
        forall i :: 0 <= i < Kept(|fields|, MAX_KEYS) && !sensitive(fields[i].0) ==>
          ForeignFits(fields[i].1, depth + 1, sensitive)
      case _ => true
  }

  lemma CutTwice(s: string)
    ensures Cut(Cut(s)) == Cut(s)
  {
    if |s| > MAX_TEXT { assert Cut(s)[..MAX_TEXT] == s[..MAX_TEXT]; }
  }

  // Sanitizing what was sanitized changes nothing exactly when no over-long foreign text was kept, so always for JSON.
  lemma {:induction false} IdempotentIffForeignFits(v: Meta, depth: nat, sensitive: string -> bool)
    ensures Sanitize(Sanitize(v, depth, sensitive), depth, sensitive) == Sanitize(v, depth, sensitive)
       <==> ForeignFits(v, depth, sensitive)
    decreases v, 1
  {
    if depth <= MAX_DEPTH {
      match v
      case Str(s) => CutTwice(s);
      case Arr(items) => IdempotentItems(v, depth, sensitive);
      case Obj(fields) => IdempotentFields(v, depth, sensitive);
      case _ =>
    }
  }

  lemma {:induction false} IdempotentItems(v: Meta, depth: nat, sensitive: string -> bool)
    requires v.Arr? && depth <= MAX_DEPTH
    ensures Sanitize(Sanitize(v, depth, sensitive), depth, sensitive) == Sanitize(v, depth, sensitive)
       <==> ForeignFits(v, depth, sensitive)
    decreases v, 0
  {
    var once := Sanitize(v, depth, sensitive).items;
    var twice := Sanitize(Arr(once), depth, sensitive).items;
    forall i | 0 <= i < |once| ensures twice[i] == once[i] <==> ForeignFits(v.items[i], depth + 1, sensitive) {
      IdempotentIffForeignFits(v.items[i], depth + 1, sensitive);
    }
    assert twice == once <==> forall i :: 0 <= i < |once| ==> twice[i] == once[i];
  }

  lemma {:induction false} IdempotentFields(v: Meta, depth: nat, sensitive: string -> bool)
    requires v.Obj? && depth <= MAX_DEPTH
    ensures Sanitize(Sanitize(v, depth, sensitive), depth, sensitive) == Sanitize(v, depth, sensitive)
       <==> ForeignFits(v, depth, sensitive)
    decreases v, 0
  {
    var once := Sanitize(v, depth, sensitive).fields;
    var twice := Sanitize(Obj(once), depth, sensitive).fields;
    forall i | 0 <= i < |once|
      ensures twice[i] == once[i] <==> sensitive(v.fields[i].0) || ForeignFits(v.fields[i].1, depth + 1, sensitive)
    {
      if !sensitive(v.fields[i].0) { IdempotentIffForeignFits(v.fields[i].1, depth + 1, sensitive); }
    }
    assert twice == once <==> forall i :: 0 <= i < |once| ==> twice[i] == once[i];
  }

  // ---- What is kept ----

  // At most nine levels of containers of at most 200 keys or 100 items, texts of at most 2000 characters or already cut
  // there, JSON only, and a redaction under every sensitive key.
  ghost predicate Fits(v: Meta, depth: nat, sensitive: string -> bool) {
    match v
    case Str(s) => if depth > 8 then s == "[TRUNCATED]" else |s| <= 2000 || (|s| == 2001 && s[2000] == '…')
    case Arr(items) =>
      && depth <= 8 && |items| <= 100
      && forall i :: 0 <= i < |items| ==> Fits(items[i], depth + 1, sensitive)
    case Obj(fields) =>
      && depth <= 8 && |fields| <= 200
      && forall i :: 0 <= i < |fields| ==>
           if sensitive(fields[i].0) then fields[i].1 == Str("[REDACTED]") else Fits(fields[i].1, depth + 1, sensitive)
    case Foreign(_) => false
    case _ => depth <= 8
  }

  // Metadata is kept as it is exactly when it fits.
  lemma {:induction false} KeptAsItIsIffFits(v: Meta, depth: nat, sensitive: string -> bool)
    ensures Sanitize(v, depth, sensitive) == v <==> Fits(v, depth, sensitive)
    decreases v, 1
  {
    if depth <= MAX_DEPTH {
      match v
      case Str(s) => if |s| > MAX_TEXT { CutIsLonger(s); }
      case Arr(items) => KeptItems(v, depth, sensitive);
      case Obj(fields) => KeptFields(v, depth, sensitive);
      case _ =>
    }
  }

  lemma CutIsLonger(s: string)
    requires |s| > 2000
    ensures Cut(s) == s[..2000] + "…" && |Cut(s)| == 2001
    ensures Cut(s) == s <==> |s| == 2001 && s[2000] == '…'
  {
    if |s| == 2001 && s[2000] == '…' { assert s == s[..2000] + [s[2000]]; }
  }

  lemma {:induction false} KeptItems(v: Meta, depth: nat, sensitive: string -> bool)
    requires v.Arr? && depth <= MAX_DEPTH
    ensures Sanitize(v, depth, sensitive) == v <==> Fits(v, depth, sensitive)
    decreases v, 0
  {
    var once := Sanitize(v, depth, sensitive).items;
    forall i | 0 <= i < |once| ensures once[i] == v.items[i] <==> Fits(v.items[i], depth + 1, sensitive) {
      KeptAsItIsIffFits(v.items[i], depth + 1, sensitive);
    }
    assert once == v.items <==> |once| == |v.items| && forall i :: 0 <= i < |once| ==> once[i] == v.items[i];
  }

  lemma {:induction false} KeptFields(v: Meta, depth: nat, sensitive: string -> bool)
    requires v.Obj? && depth <= MAX_DEPTH
    ensures Sanitize(v, depth, sensitive) == v <==> Fits(v, depth, sensitive)
    decreases v, 0
  {
    var once := Sanitize(v, depth, sensitive).fields;
    forall i | 0 <= i < |once|
      ensures once[i] == v.fields[i] <==>
              if sensitive(v.fields[i].0) then v.fields[i].1 == Str("[REDACTED]")
              else Fits(v.fields[i].1, depth + 1, sensitive)
    {
      if !sensitive(v.fields[i].0) { KeptAsItIsIffFits(v.fields[i].1, depth + 1, sensitive); }
    }
    assert once == v.fields <==> |once| == |v.fields| && forall i :: 0 <= i < |once| ==> once[i] == v.fields[i];
  }
}
