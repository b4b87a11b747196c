/** The SQLite store's memory tables: items, and the alias, tag and full-text tables kept in step with them. */
module MemoryIndex {
  import opened Wrappers

  type Id = string

  datatype Item = Item(status: string, title: string, body: string, aliases: seq<string>, tags: seq<string>)

  /** A row of the alias or the tag table, unique by item and normalized text. */
  datatype Row = Row(id: Id, text: string, normalized: string)

  datatype FullText = FullText(id: Id, title: string, body: string, aliases: string, tags: string)

  datatype Tables = Tables(
    items: map<Id, Item>, aliases: seq<Row>, tags: seq<Row>, fullText: seq<FullText>, approvals: map<Id, string>)

  /** The call's return value, or the constraint error it raised. */
  datatype WriteOutcome = Returned(changed: bool) | ConstraintError

  function Joined(words: seq<string>): string {
    if words == [] then "" else if |words| == 1 then words[0] else words[0] + " " + Joined(words[1..])
  }

  function FullTextOf(id: Id, item: Item): FullText {
    FullText(id, item.title, item.body, Joined(item.aliases), Joined(item.tags))
  }

  // ---- rows ----

  function Of(rows: seq<Row>, id: Id): seq<Row> {
    if rows == [] then [] else (if rows[0].id == id then [rows[0]] else []) + Of(rows[1..], id)
  }

  function NotOf(rows: seq<Row>, id: Id): seq<Row> {
    if rows == [] then [] else (if rows[0].id == id then [] else [rows[0]]) + NotOf(rows[1..], id)
  }

  function TextOf(rows: seq<FullText>, id: Id): seq<FullText> {
    if rows == [] then [] else (if rows[0].id == id then [rows[0]] else []) + TextOf(rows[1..], id)
  }

  function TextNotOf(rows: seq<FullText>, id: Id): seq<FullText> {
    if rows == [] then [] else (if rows[0].id == id then [] else [rows[0]]) + TextNotOf(rows[1..], id)
  }

  function Derived(id: Id, texts: seq<string>, normal: string -> string): seq<Row> {
    seq(|texts|, i requires 0 <= i < |texts| => Row(id, texts[i], normal(texts[i])))
  }

  predicate Taken(rows: seq<Row>, row: Row) {
    exists r :: r in rows && r.id == row.id && r.normalized == row.normalized
  }

  predicate Distinct(texts: seq<string>, normal: string -> string) {
    forall i, j :: 0 <= i < j < |texts| ==> normal(texts[i]) != normal(texts[j])
  }

  lemma {:induction false} OfAppend(rows: seq<Row>, more: seq<Row>, id: Id)
    ensures Of(rows + more, id) == Of(rows, id) + Of(more, id)
  {
    if rows == [] {
      assert rows + more == more;
    } else {
      OfAppend(rows[1..], more, id);
      var front := if rows[0].id == id then [rows[0]] else [];
      assert (rows + more)[1..] == rows[1..] + more && (rows + more)[0] == rows[0];
      assert front + (Of(rows[1..], id) + Of(more, id)) == front + Of(rows[1..], id) + Of(more, id);
    }
  }

  lemma {:induction false} OfDerived(id: Id, texts: seq<string>, normal: string -> string, other: Id)
    ensures Of(Derived(id, texts, normal), other) == if other == id then Derived(id, texts, normal) else []
  {
    if texts != [] {
      OfDerived(id, texts[1..], normal, other);
      assert Derived(id, texts, normal)[1..] == Derived(id, texts[1..], normal);
    }
  }

  lemma {:induction false} OfNotOf(rows: seq<Row>, id: Id, other: Id)
    ensures Of(NotOf(rows, id), other) == if other == id then [] else Of(rows, other)
  {
    if rows != [] {
      OfNotOf(rows[1..], id, other);
      OfAppend(if rows[0].id == id then [] else [rows[0]], NotOf(rows[1..], id), other);
    }
  }

  lemma {:induction false} TextOfAppend(rows: seq<FullText>, more: seq<FullText>, id: Id)
    ensures TextOf(rows + more, id) == TextOf(rows, id) + TextOf(more, id)
  {
    if rows == [] {
      assert rows + more == more;
    } else {
      TextOfAppend(rows[1..], more, id);
      var front := if rows[0].id == id then [rows[0]] else [];
      assert (rows + more)[1..] == rows[1..] + more && (rows + more)[0] == rows[0];
      assert front + (TextOf(rows[1..], id) + TextOf(more, id)) == front + TextOf(rows[1..], id) + TextOf(more, id);
    }
  }

  lemma {:induction false} TextOfNotOf(rows: seq<FullText>, id: Id, other: Id)
    ensures TextOf(TextNotOf(rows, id), other) == if other == id then [] else TextOf(rows, other)
  {
    if rows != [] {
      TextOfNotOf(rows[1..], id, other);
      TextOfAppend(if rows[0].id == id then [] else [rows[0]], TextNotOf(rows[1..], id), other);
    }
  }

  /** A row of the item exists exactly when `Of` is not empty. */
  lemma {:induction false} InOf(rows: seq<Row>, row: Row)
    ensures row in Of(rows, row.id) <==> row in rows
  {
    if rows != [] {
      InOf(rows[1..], row);
    }
  }

  // ---- operations ----

  /** The inserts into the alias or tag table; one that repeats a normalized text violates the table's constraint. */
  function Inserted(rows: seq<Row>, id: Id, texts: seq<string>, normal: string -> string): Option<seq<Row>>
    decreases |texts|
  {
    if texts == [] then Some(rows)
    else
      var row := Row(id, texts[0], normal(texts[0]));
      if Taken(rows, row) then None else Inserted(rows + [row], id, texts[1..], normal)
  }

  /** `_sync_memory_index`. */
  function Synced(t: Tables, id: Id, item: Item, normal: string -> string): Option<Tables> {
    var aliases := Inserted(NotOf(t.aliases, id), id, item.aliases, normal);
    var tags := Inserted(NotOf(t.tags, id), id, item.tags, normal);
    if aliases.None? || tags.None? then None
    else
      Some(Tables(t.items, aliases.value, tags.value, TextNotOf(t.fullText, id) + [FullTextOf(id, item)], t.approvals))
  }

  /** A transaction that writes an item and its index, or rolls back. */
  function Written(t: Tables, id: Id, item: Item, approvals: map<Id, string>, normal: string -> string): (Tables, WriteOutcome) {
    match Synced(t.(items := t.items[id := item], approvals := approvals), id, item, normal)
    case None => (t, ConstraintError)
    case Some(t') => (t', Returned(true))
  }

  datatype Op =
    | Set(id: Id, item: Item)
    | Transition(id: Id, expected: set<string>, item: Item)
    | Decide(
        approval: Id, id: Id, approvalExpected: set<string>, itemExpected: set<string>, approvalStatus: string, item: Item)
    | Delete(id: Id)
    | SetApproval(approval: Id, approvalStatus: string)

  function Apply(t: Tables, op: Op, normal: string -> string): (Tables, WriteOutcome) {
    match op
    case Set(id, item) => Written(t, id, item, t.approvals, normal)
    case Transition(id, expected, item) =>
      if id in t.items && t.items[id].status in expected then Written(t, id, item, t.approvals, normal)
      else (t, Returned(false))
    case Decide(approval, id, approvalExpected, itemExpected, approvalStatus, item) =>
      if approval in t.approvals && t.approvals[approval] in approvalExpected
         && id in t.items && t.items[id].status in itemExpected
      then Written(t, id, item, t.approvals[approval := approvalStatus], normal)
      else (t, Returned(false))
    case Delete(id) =>
      // the alias and tag rows go with the item: their foreign key cascades
      (Tables(t.items - {id}, if id in t.items then NotOf(t.aliases, id) else t.aliases,
              if id in t.items then NotOf(t.tags, id) else t.tags, TextNotOf(t.fullText, id), t.approvals),
       Returned(id in t.items))
    case SetApproval(approval, approvalStatus) => (t.(approvals := t.approvals[approval := approvalStatus]), Returned(true))
  }

  function Run(t: Tables, ops: seq<Op>, normal: string -> string): Tables
    decreases |ops|
  {
    if ops == [] then t else Run(Apply(t, ops[0], normal).0, ops[1..], normal)
  }

  class SqliteMemoryStore {
    const normal: string -> string
    var items: map<Id, Item>
    var aliases: seq<Row>
    var tags: seq<Row>
    var fullText: seq<FullText>
    var approvals: map<Id, string>

    constructor (normal: string -> string)
      ensures this.normal == normal && Contents() == Tables(map[], [], [], [], map[])
    {
      this.normal := normal;
      items, aliases, tags, fullText, approvals := map[], [], [], [], map[];
    }

    function Contents(): Tables
      reads this
    {
      Tables(items, aliases, tags, fullText, approvals)
    }

    method InsertRows(rows: seq<Row>, id: Id, texts: seq<string>) returns (r: Option<seq<Row>>)
      ensures r == Inserted(rows, id, texts, normal)
    {
      var all := rows;
      for i := 0 to |texts|
        invariant Inserted(all, id, texts[i..], normal) == Inserted(rows, id, texts, normal)
      {
        assert texts[i..][0] == texts[i] && texts[i..][1..] == texts[i + 1..];
        var row := Row(id, texts[i], normal(texts[i]));
        if Taken(all, row) {
          return None;
        }
        all := all + [row];
      }
      return Some(all);
    }

    /** False when a constraint was violated; the tables are then in between. */
    method SyncMemoryIndex(id: Id, item: Item) returns (ok: bool)
      modifies this
      ensures ok <==> Synced(old(Contents()), id, item, normal).Some?
      ensures ok ==> Contents() == Synced(old(Contents()), id, item, normal).value
    {
      aliases := NotOf(aliases, id);
      tags := NotOf(tags, id);
      var withAliases := InsertRows(aliases, id, item.aliases);
      if withAliases.None? {
        return false;
      }
      aliases := withAliases.value;
      var withTags := InsertRows(tags, id, item.tags);
      if withTags.None? {
        return false;
      }
      tags := withTags.value;
      fullText := TextNotOf(fullText, id);
      fullText := fullText + [FullTextOf(id, item)];
      return true;
    }

    method Rollback(saved: Tables)
      modifies this
      ensures Contents() == saved
    {
      items, aliases, tags, fullText, approvals := saved.items, saved.aliases, saved.tags, saved.fullText, saved.approvals;
    }

    method SetMemoryItem(id: Id, item: Item) returns (r: WriteOutcome)
      modifies this
      ensures (Contents(), r) == Apply(old(Contents()), Set(id, item), normal)
    {
      var saved := Contents();
      items := items[id := item];
      var ok := SyncMemoryIndex(id, item);
      if !ok {
        Rollback(saved);
        return ConstraintError;
      }
      return Returned(true);
    }

    method TransitionMemoryItem(id: Id, expected: set<string>, item: Item) returns (r: WriteOutcome)
      modifies this
      ensures (Contents(), r) == Apply(old(Contents()), Transition(id, expected, item), normal)
    {
      if expected == {} {
        return Returned(false);
      }
      var saved := Contents();
      var updated := id in items && items[id].status in expected;
      if updated {
        items := items[id := item];
        var ok := SyncMemoryIndex(id, item);
        if !ok {
          Rollback(saved);
          return ConstraintError;
        }
      }
      return Returned(updated);
    }

    /** Both updates run; the transaction is rolled back unless both hit a row. */
    method TransitionMemoryApproval(
      approval: Id, id: Id, approvalExpected: set<string>, itemExpected: set<string>, approvalStatus: string, item: Item)
      returns (r: WriteOutcome)
      modifies this
      ensures (Contents(), r)
           == Apply(old(Contents()), Decide(approval, id, approvalExpected, itemExpected, approvalStatus, item), normal)
    {
      if approvalExpected == {} || itemExpected == {} {
        return Returned(false);
      }
      var saved := Contents();
      var approvalHit := approval in approvals && approvals[approval] in approvalExpected;
      if approvalHit {
        approvals := approvals[approval := approvalStatus];
      }
      var itemHit := id in items && items[id].status in itemExpected;
      if itemHit {
        items := items[id := item];
      }
      if !approvalHit || !itemHit {
        Rollback(saved);
        return Returned(false);
      }
      var ok := SyncMemoryIndex(id, item);
      if !ok {
        Rollback(saved);
        return ConstraintError;
      }
      return Returned(true);
    }

    method DeleteMemoryItem(id: Id) returns (r: WriteOutcome)
      modifies this
      ensures (Contents(), r) == Apply(old(Contents()), Delete(id), normal)
    {
      fullText := TextNotOf(fullText, id);
      var hit := id in items;
      if hit {
        items := items - {id};
        aliases := NotOf(aliases, id);
        tags := NotOf(tags, id);
      } else {
        assert items - {id} == items;
      }
      return Returned(hit);
    }
  }

  // ---- the index agrees with the items ----

  /** For every identifier: exactly the rows derived from its item, in order, and none without an item. */
  ghost predicate Agrees(t: Tables, normal: string -> string) {
    forall id :: AgreesFor(t, id, normal)
  }

  ghost predicate AgreesFor(t: Tables, id: Id, normal: string -> string) {
    if id in t.items then
      && Of(t.aliases, id) == Derived(id, t.items[id].aliases, normal)
      && Of(t.tags, id) == Derived(id, t.items[id].tags, normal)
      && TextOf(t.fullText, id) == [FullTextOf(id, t.items[id])]
      && Distinct(t.items[id].aliases, normal) && Distinct(t.items[id].tags, normal)
    else Of(t.aliases, id) == [] && Of(t.tags, id) == [] && TextOf(t.fullText, id) == []
  }

  /** Inserting next to other items' rows fails exactly when two texts normalize alike. */
  lemma {:induction false} InsertIsExact(rows: seq<Row>, id: Id, before: seq<string>, texts: seq<string>, normal: string -> string)
    requires Of(rows, id) == Derived(id, before, normal) && Distinct(before, normal)
    ensures Inserted(rows, id, texts, normal).Some? <==> Distinct(before + texts, normal)
    ensures Inserted(rows, id, texts, normal).Some? ==>
              Inserted(rows, id, texts, normal).value == rows + Derived(id, texts, normal)
    decreases |texts|
  {
    if texts == [] {
      assert before + texts == before;
      assert rows + Derived(id, [], normal) == rows;
    } else {
      var row := Row(id, texts[0], normal(texts[0]));
      TakenIsRepeated(rows, id, before, texts[0], normal);
      if !Taken(rows, row) {
        var longer := before + [texts[0]];
        OfAppend(rows, [row], id);
        assert Derived(id, longer, normal) == Derived(id, before, normal) + [row];
        InsertIsExact(rows + [row], id, longer, texts[1..], normal);
        assert longer + texts[1..] == before + texts;
        assert rows + [row] + Derived(id, texts[1..], normal) == rows + Derived(id, texts, normal);
      } else {
        var i :| 0 <= i < |before| && normal(before[i]) == normal(texts[0]);
        assert (before + texts)[i] == before[i] && (before + texts)[|before|] == texts[0];
      }
    }
  }

  lemma TakenIsRepeated(rows: seq<Row>, id: Id, before: seq<string>, text: string, normal: string -> string)
    requires Of(rows, id) == Derived(id, before, normal)
    ensures Taken(rows, Row(id, text, normal(text))) <==> exists i :: 0 <= i < |before| && normal(before[i]) == normal(text)
  {
    if Taken(rows, Row(id, text, normal(text))) {
      var r :| r in rows && r.id == id && r.normalized == normal(text);
      InOf(rows, r);
      var i :| 0 <= i < |before| && Derived(id, before, normal)[i] == r;
    }
    if i :| 0 <= i < |before| && normal(before[i]) == normal(text) {
      var r := Derived(id, before, normal)[i];
      assert r in Of(rows, id);
      InOf(rows, r);
    }
  }

  /** One table's rows after its part of `_sync_memory_index`. */
  lemma ReindexIsExact(rows: seq<Row>, id: Id, texts: seq<string>, normal: string -> string, other: Id)
    ensures var after := Inserted(NotOf(rows, id), id, texts, normal);
            && (after.Some? <==> Distinct(texts, normal))
            && (after.Some? ==> Of(after.value, other) == if other == id then Derived(id, texts, normal) else Of(rows, other))
  {
    OfNotOf(rows, id, id);
    InsertIsExact(NotOf(rows, id), id, [], texts, normal);
    assert [] + texts == texts;
    OfAppend(NotOf(rows, id), Derived(id, texts, normal), other);
    OfNotOf(rows, id, other);
    OfDerived(id, texts, normal, other);
  }

  /** A write succeeds exactly when aliases and tags are distinct after normalization; if not, no table changes. */
  lemma WriteIsExact(t: Tables, id: Id, item: Item, approvals: map<Id, string>, normal: string -> string)
    requires Agrees(t, normal)
    ensures var (after, outcome) := Written(t, id, item, approvals, normal);
            if Distinct(item.aliases, normal) && Distinct(item.tags, normal)
            then outcome == Returned(true) && after.items == t.items[id := item] && after.approvals == approvals
            else outcome == ConstraintError && after == t
    ensures Agrees(Written(t, id, item, approvals, normal).0, normal)
  {
    var after := Written(t, id, item, approvals, normal).0;
    ReindexIsExact(t.aliases, id, item.aliases, normal, id);
    ReindexIsExact(t.tags, id, item.tags, normal, id);
    forall other ensures AgreesFor(after, other, normal) {
      assert AgreesFor(t, other, normal);
      ReindexIsExact(t.aliases, id, item.aliases, normal, other);
      ReindexIsExact(t.tags, id, item.tags, normal, other);
      TextOfNotOf(t.fullText, id, other);
      TextOfAppend(TextNotOf(t.fullText, id), [FullTextOf(id, item)], other);
    }
  }

  lemma DeleteKeepsAgreement(t: Tables, id: Id, normal: string -> string)
    requires Agrees(t, normal)
    ensures Agrees(Apply(t, Delete(id), normal).0, normal)
  {
    var after := Apply(t, Delete(id), normal).0;
    forall other ensures AgreesFor(after, other, normal) {
      assert AgreesFor(t, other, normal);
      OfNotOf(t.aliases, id, other);
      OfNotOf(t.tags, id, other);
      TextOfNotOf(t.fullText, id, other);
    }
  }

  lemma ApplyKeepsAgreement(t: Tables, op: Op, normal: string -> string)
    requires Agrees(t, normal)
    ensures Agrees(Apply(t, op, normal).0, normal)
    ensures Apply(t, op, normal).1 != Returned(true) && !op.Delete? ==> Apply(t, op, normal).0 == t
  {
    match op {
      case Set(id, item) => WriteIsExact(t, id, item, t.approvals, normal);
      case Transition(id, expected, item) => WriteIsExact(t, id, item, t.approvals, normal);
      case Decide(approval, id, _, _, approvalStatus, item) =>
        WriteIsExact(t, id, item, t.approvals[approval := approvalStatus], normal);
      case Delete(id) => DeleteKeepsAgreement(t, id, normal);
      case SetApproval(_, _) =>
        forall other ensures AgreesFor(Apply(t, op, normal).0, other, normal) {
          assert AgreesFor(t, other, normal);
        }
    }
  }

  lemma {:induction false} RunKeepsAgreement(t: Tables, ops: seq<Op>, normal: string -> string)
    requires Agrees(t, normal)
    ensures Agrees(Run(t, ops, normal), normal)
    decreases |ops|
  {
    if ops != [] {
      ApplyKeepsAgreement(t, ops[0], normal);
      RunKeepsAgreement(Apply(t, ops[0], normal).0, ops[1..], normal);
    }
  }

  const EMPTY := Tables(map[], [], [], [], map[])

  /** After any sequence of operations the index tables hold exactly what the items say: one full-text row per item. */
  lemma IndexAlwaysAgrees(ops: seq<Op>, normal: string -> string)
    ensures Agrees(Run(EMPTY, ops, normal), normal)
  {
    RunKeepsAgreement(EMPTY, ops, normal);
  }

  /** Exactly when a conditional update changes the tables, and what the decision does to the approval then. */
  lemma DecisionIsExact(t: Tables, op: Op, normal: string -> string)
    requires Agrees(t, normal) && op.Decide?
    ensures var (after, outcome) := Apply(t, op, normal);
            var met := && op.approval in t.approvals && t.approvals[op.approval] in op.approvalExpected
                       && op.id in t.items && t.items[op.id].status in op.itemExpected;
            if !met then after == t && outcome == Returned(false)
            else if Distinct(op.item.aliases, normal) && Distinct(op.item.tags, normal) then
              after.approvals == t.approvals[op.approval := op.approvalStatus] && after.items == t.items[op.id := op.item]
              && outcome == Returned(true)
            else after == t && outcome == ConstraintError
  {
    WriteIsExact(t, op.id, op.item, t.approvals[op.approval := op.approvalStatus], normal);
  }
}
