/** The statement builders of lib/db.ts: the text and parameter list of the
    item listing query, the preference update, and the inserts with their
    `|| null` normalisation.  Executing the statements is not modelled. */
module Db {
  import opened Js

  /** A value bound to a `?` placeholder. */
  datatype SqlParam = PText(text: string) | PNum(num: JsInt) | PNull

  // ---------------------------------------------------------------------
  // Statement text

  /** SQL text with no `?` of its own. */
  type PlainText = s: string | '?' !in s

  /** Statement text is kept as pieces: fixed SQL text, a name supplied by
      the caller (a preference key), or a `?` placeholder. */
  datatype Piece = Text(text: PlainText) | Name(name: string) | Hole

  /** The statement string the pieces spell. */
  function Render(pieces: seq<Piece>): string {
    if pieces == [] then ""
    else Spell(pieces[0]) + Render(pieces[1..])
  }

  function Spell(piece: Piece): string {
    match piece
    case Text(t) => t
    case Name(n) => n
    case Hole => "?"
  }

  /** The number of placeholders among the pieces. */
  function Holes(pieces: seq<Piece>): nat {
    if pieces == [] then 0 else (if pieces[0].Hole? then 1 else 0) + Holes(pieces[1..])
  }

  /** No supplied name contains a `?`. */
  predicate Literal(pieces: seq<Piece>) {
    forall i :: 0 <= i < |pieces| && pieces[i].Name? ==> '?' !in pieces[i].name
  }

  lemma {:induction false} CountCharAbsent(s: string, c: char)
    requires c !in s
    ensures CountChar(s, c) == 0
  {
    if s != [] {
      CountCharAbsent(s[1..], c);
    }
  }

  /** The rendered statement has exactly one `?` per placeholder. */
  lemma {:induction false} RenderPlaceholders(pieces: seq<Piece>)
    requires Literal(pieces)
    ensures CountChar(Render(pieces), '?') == Holes(pieces)
  {
    if pieces != [] {
      RenderPlaceholders(pieces[1..]);
      if !pieces[0].Hole? {
        CountCharAbsent(Spell(pieces[0]), '?');
      }
      CountCharAppend(Spell(pieces[0]), Render(pieces[1..]), '?');
    }
  }

  lemma {:induction false} PiecesAppend(a: seq<Piece>, b: seq<Piece>)
    ensures Holes(a + b) == Holes(a) + Holes(b)
    ensures Literal(a) && Literal(b) ==> Literal(a + b)
  {
    if a == [] {
      assert a + b == b;
    } else {
      assert (a + b)[1..] == a[1..] + b;
      PiecesAppend(a[1..], b);
    }
  }

  /** `parts.join(sep)` on piece sequences. */
  function JoinPieces(parts: seq<seq<Piece>>, sep: seq<Piece>): seq<Piece> {
    if parts == [] then []
    else if |parts| == 1 then parts[0]
    else parts[0] + sep + JoinPieces(parts[1..], sep)
  }

  function SumHoles(parts: seq<seq<Piece>>): nat {
    if parts == [] then 0 else Holes(parts[0]) + SumHoles(parts[1..])
  }

  lemma {:induction false} JoinPiecesFacts(parts: seq<seq<Piece>>, sep: seq<Piece>)
    requires Literal(sep) && Holes(sep) == 0
    requires forall k :: 0 <= k < |parts| ==> Literal(parts[k])
    ensures Literal(JoinPieces(parts, sep))
    ensures Holes(JoinPieces(parts, sep)) == SumHoles(parts)
  {
    if |parts| > 1 {
      JoinPiecesFacts(parts[1..], sep);
      PiecesAppend(parts[0], sep);
      PiecesAppend(parts[0] + sep, JoinPieces(parts[1..], sep));
    } else if |parts| == 1 {
      assert parts[1..] == [];
    }
  }

  // ---------------------------------------------------------------------
  // getItems

  /** The SELECT template of `getItems`, line by line. */
  const SelectLine: PlainText := "\n      SELECT \n"
  const ItemColumns: PlainText := "        i.*,\n"
  const SummaryColumn: PlainText := "        ao.summary,\n"
  const TagsColumn: PlainText := "        ao.tags,\n"
  const ProcessedColumn: PlainText := "        ao.created_at as processed_at\n"
  const FromLine: PlainText := "      FROM items i\n"
  const JoinTable: PlainText := "      LEFT JOIN ai_outputs ao"
  const JoinOn: PlainText := " ON i.id = ao.item_id\n"
  const Indent: PlainText := "    "
  const BaseQuery: seq<Piece> := [
    Text(SelectLine), Text(ItemColumns), Text(SummaryColumn), Text(TagsColumn),
    Text(ProcessedColumn), Text(FromLine), Text(JoinTable), Text(JoinOn), Text(Indent)]

  const TitleLike: PlainText := "(i.title LIKE "
  const OrRawTextLike: PlainText := " OR i.raw_text LIKE "
  const CloseParen: PlainText := ")"
  const TagsLike: PlainText := "ao.tags LIKE "
  const OrderBy: PlainText := " ORDER BY i.created_at DESC"
  const LimitWord: PlainText := " LIMIT "
  const OffsetWord: PlainText := " OFFSET "
  const WhereWord: PlainText := " WHERE "
  const AndWord: PlainText := " AND "

  const SearchCondition: seq<Piece> := [Text(TitleLike), Hole, Text(OrRawTextLike), Hole, Text(CloseParen)]
  const TagCondition: seq<Piece> := [Text(TagsLike), Hole]
  const OrderClause: seq<Piece> := [Text(OrderBy), Text(LimitWord), Hole, Text(OffsetWord), Hole]
  const Where: seq<Piece> := [Text(WhereWord)]
  const And: seq<Piece> := [Text(AndWord)]

  /** The conditions in the order they are pushed: search, then tag. */
  function Conditions(q: Option<string>, tag: Option<string>): (c: seq<seq<Piece>>)
    ensures |c| == (if Truthy(q) then 1 else 0) + (if Truthy(tag) then 1 else 0)
  {
    (if Truthy(q) then [SearchCondition] else []) + (if Truthy(tag) then [TagCondition] else [])
  }

  /** The WHERE part: nothing when there is no condition. */
  function WhereClause(conditions: seq<seq<Piece>>): seq<Piece> {
    if conditions == [] then [] else Where + JoinPieces(conditions, And)
  }

  /** The statement of `getItems`, as pieces. */
  function ItemsQuery(q: Option<string>, tag: Option<string>): seq<Piece> {
    BaseQuery + WhereClause(Conditions(q, tag)) + OrderClause
  }

  /** The parameters of `getItems`: `%q%` twice for a search, `%"tag"%` for a
      tag, then the limit (default 50) and the offset (default 0). */
  function ItemsParams(q: Option<string>, tag: Option<string>, limit: Option<JsInt>, offset: Option<JsInt>): seq<SqlParam> {
    (if Truthy(q) then [PText("%" + q.value + "%"), PText("%" + q.value + "%")] else [])
    + (if Truthy(tag) then [PText("%\"" + tag.value + "\"%")] else [])
    + [PNum(if limit.Some? then limit.value else Int(50)), PNum(if offset.Some? then offset.value else Int(0))]
  }

  /** `getItems(options)`: builds the statement and its parameters step by
      step, and renders the statement text. */
  method BuildItemsQuery(q: Option<string>, tag: Option<string>, limit: Option<JsInt>, offset: Option<JsInt>)
    returns (sql: string, params: seq<SqlParam>)
    ensures sql == Render(ItemsQuery(q, tag))
    ensures params == ItemsParams(q, tag, limit, offset)
    ensures CountChar(sql, '?') == |params|
  {
    var lim := if limit.Some? then limit.value else Int(50);
    var off := if offset.Some? then offset.value else Int(0);
    var query := BaseQuery;
    var conditions: seq<seq<Piece>> := [];
    params := [];
    ghost var searchParams := if Truthy(q) then [PText("%" + q.value + "%"), PText("%" + q.value + "%")] else [];
    ghost var tagParams := if Truthy(tag) then [PText("%\"" + tag.value + "\"%")] else [];
    if Truthy(q) {
      conditions := conditions + [SearchCondition];
      params := params + [PText("%" + q.value + "%"), PText("%" + q.value + "%")];
    }
    assert params == searchParams;
    if Truthy(tag) {
      conditions := conditions + [TagCondition];
      params := params + [PText("%\"" + tag.value + "\"%")];
    }
    assert params == searchParams + tagParams;
    assert conditions == Conditions(q, tag);
    if |conditions| > 0 {
      query := query + (Where + JoinPieces(conditions, And));
    }
    assert query == BaseQuery + WhereClause(Conditions(q, tag));
    query := query + OrderClause;
    params := params + [PNum(lim), PNum(off)];
    assert params == ItemsParams(q, tag, limit, offset);
    sql := Render(query);
    PlaceholdersMatchParams(q, tag, limit, offset);
  }

  lemma {:induction false} NoHoles(pieces: seq<Piece>)
    requires forall i :: 0 <= i < |pieces| ==> pieces[i].Text?
    ensures Holes(pieces) == 0 && Literal(pieces)
  {
    if pieces != [] {
      NoHoles(pieces[1..]);
    }
  }

  lemma HolesCons(p: Piece, rest: seq<Piece>)
    ensures Holes([p] + rest) == (if p.Hole? then 1 else 0) + Holes(rest)
  {
    assert ([p] + rest)[1..] == rest;
  }

  lemma SearchConditionHoles()
    ensures Literal(SearchCondition) && Holes(SearchCondition) == 2
  {
    HolesCons(Text(CloseParen), []);
    HolesCons(Hole, [Text(CloseParen)]);
    HolesCons(Text(OrRawTextLike), [Hole, Text(CloseParen)]);
    HolesCons(Hole, [Text(OrRawTextLike), Hole, Text(CloseParen)]);
    HolesCons(Text(TitleLike), [Hole, Text(OrRawTextLike), Hole, Text(CloseParen)]);
  }

  lemma OrderClauseHoles()
    ensures Literal(OrderClause) && Holes(OrderClause) == 2
  {
    HolesCons(Hole, []);
    HolesCons(Text(OffsetWord), [Hole]);
    HolesCons(Hole, [Text(OffsetWord), Hole]);
    HolesCons(Text(LimitWord), [Hole, Text(OffsetWord), Hole]);
    HolesCons(Text(OrderBy), [Text(LimitWord), Hole, Text(OffsetWord), Hole]);
  }

  /** The fixed pieces: none holds a supplied name, and the placeholders each holds. */
  lemma FixedPieces()
    ensures Literal(BaseQuery) && Holes(BaseQuery) == 0
    ensures Literal(SearchCondition) && Holes(SearchCondition) == 2
    ensures Literal(TagCondition) && Holes(TagCondition) == 1
    ensures Literal(OrderClause) && Holes(OrderClause) == 2
    ensures Literal(Where) && Holes(Where) == 0
    ensures Literal(And) && Holes(And) == 0
  {
    NoHoles(BaseQuery);
    NoHoles(Where);
    NoHoles(And);
    SearchConditionHoles();
    HolesCons(Hole, []);
    HolesCons(Text(TagsLike), [Hole]);
    OrderClauseHoles();
  }

  /** The WHERE part holds two placeholders for a search and one for a tag. */
  lemma WhereHoles(q: Option<string>, tag: Option<string>)
    ensures Literal(WhereClause(Conditions(q, tag)))
    ensures Holes(WhereClause(Conditions(q, tag))) == (if Truthy(q) then 2 else 0) + (if Truthy(tag) then 1 else 0)
  {
    FixedPieces();
    var c := Conditions(q, tag);
    JoinPiecesFacts(c, And);
    if Truthy(q) && Truthy(tag) {
      assert SumHoles(c) == 3 by {
        assert c[1..] == [TagCondition];
        assert c[1..][1..] == [];
        assert SumHoles(c[1..]) == 1;
      }
    } else if Truthy(q) || Truthy(tag) {
      assert c[1..] == [];
    }
    if c != [] {
      PiecesAppend(Where, JoinPieces(c, And));
    }
  }

  /** The statement has exactly one `?` per parameter. */
  lemma PlaceholdersMatchParams(q: Option<string>, tag: Option<string>, limit: Option<JsInt>, offset: Option<JsInt>)
    ensures CountChar(Render(ItemsQuery(q, tag)), '?') == |ItemsParams(q, tag, limit, offset)|
  {
    NoHoles(BaseQuery);
    OrderClauseHoles();
    var w := WhereClause(Conditions(q, tag));
    WhereHoles(q, tag);
    PiecesAppend(BaseQuery, w);
    PiecesAppend(BaseQuery + w, OrderClause);
    RenderPlaceholders(ItemsQuery(q, tag));
  }

  /** ` WHERE ` is added only for a search or a tag; with both, the search
      condition comes first and the two are joined by ` AND `. */
  lemma WhereShapes(q: Option<string>, tag: Option<string>)
    ensures !Truthy(q) && !Truthy(tag) ==> ItemsQuery(q, tag) == BaseQuery + OrderClause
    ensures Truthy(q) && !Truthy(tag) ==> ItemsQuery(q, tag) == BaseQuery + Where + SearchCondition + OrderClause
    ensures !Truthy(q) && Truthy(tag) ==> ItemsQuery(q, tag) == BaseQuery + Where + TagCondition + OrderClause
    ensures Truthy(q) && Truthy(tag) ==>
      ItemsQuery(q, tag) == BaseQuery + Where + SearchCondition + And + TagCondition + OrderClause
  {
    var c := Conditions(q, tag);
    if Truthy(q) && Truthy(tag) {
      assert c == [SearchCondition, TagCondition];
      assert c[1..] == [TagCondition];
      assert JoinPieces(c, And) == SearchCondition + And + TagCondition;
    }
  }

  /** An absent limit and offset become 50 and 0; given ones are passed as they are. */
  lemma ParamDefaults(q: Option<string>, tag: Option<string>, limit: Option<JsInt>, offset: Option<JsInt>)
    ensures var p := ItemsParams(q, tag, limit, offset);
      && |p| >= 2
      && p[|p| - 2] == PNum(if limit.None? then Int(50) else limit.value)
      && p[|p| - 1] == PNum(if offset.None? then Int(0) else offset.value)
      && (Truthy(q) ==> p[0] == PText("%" + q.value + "%") && p[1] == p[0])
      && (Truthy(tag) ==> p[|p| - 3] == PText("%\"" + tag.value + "\"%"))
      && |p| == 2 + (if Truthy(q) then 2 else 0) + (if Truthy(tag) then 1 else 0)
  {
  }

  // ---------------------------------------------------------------------
  // updateUserPrefs

  const UpdateSet: PlainText := "UPDATE user_prefs SET "
  const EqualsWord: PlainText := " = "
  const CommaWord: PlainText := ", "
  const WhereIdOne: PlainText := " WHERE id = 1"

  /** `key = ?` for each key, in key order. */
  function Assignments(keys: seq<string>): (r: seq<seq<Piece>>)
    ensures |r| == |keys|
    ensures forall i :: 0 <= i < |keys| ==> r[i] == [Name(keys[i]), Text(EqualsWord), Hole]
  {
    if keys == [] then [] else [[Name(keys[0]), Text(EqualsWord), Hole]] + Assignments(keys[1..])
  }

  /** `updateUserPrefs(prefs)`: `UPDATE user_prefs SET k1 = ?, k2 = ? WHERE id = 1`
      and the values, for the preference entries in key order. */
  function UpdateUserPrefs(prefs: seq<(string, SqlParam)>): (r: (seq<Piece>, seq<SqlParam>))
    ensures |r.1| == |prefs|
    ensures forall i :: 0 <= i < |prefs| ==> r.1[i] == prefs[i].1
  {
    var keys := seq(|prefs|, i requires 0 <= i < |prefs| => prefs[i].0);
    var values := seq(|prefs|, i requires 0 <= i < |prefs| => prefs[i].1);
    ([Text(UpdateSet)] + JoinPieces(Assignments(keys), [Text(CommaWord)]) + [Text(WhereIdOne)], values)
  }

  /** One placeholder per key; the assignments are literal when the keys hold no `?`. */
  lemma {:induction false} AssignmentFacts(keys: seq<string>)
    ensures SumHoles(Assignments(keys)) == |keys|
    ensures (forall i :: 0 <= i < |keys| ==> '?' !in keys[i]) ==>
      forall k :: 0 <= k < |keys| ==> Literal(Assignments(keys)[k])
  {
    if keys != [] {
      AssignmentFacts(keys[1..]);
      assert Assignments(keys)[1..] == Assignments(keys[1..]);
      HolesCons(Hole, []);
      HolesCons(Text(EqualsWord), [Hole]);
      HolesCons(Name(keys[0]), [Text(EqualsWord), Hole]);
    }
  }

  /** One `key = ?` per key, so the statement has as many `?` as values, as
      long as no key contains a `?` itself. */
  lemma UpdatePlaceholdersMatchValues(prefs: seq<(string, SqlParam)>)
    requires forall i :: 0 <= i < |prefs| ==> '?' !in prefs[i].0
    ensures CountChar(Render(UpdateUserPrefs(prefs).0), '?') == |UpdateUserPrefs(prefs).1|
  {
    var keys := seq(|prefs|, i requires 0 <= i < |prefs| => prefs[i].0);
    var assignments := Assignments(keys);
    var comma: seq<Piece> := [Text(CommaWord)];
    var head: seq<Piece> := [Text(UpdateSet)];
    var tail: seq<Piece> := [Text(WhereIdOne)];
    NoHoles(comma);
    NoHoles(head);
    NoHoles(tail);
    AssignmentFacts(keys);
    JoinPiecesFacts(assignments, comma);
    var body := JoinPieces(assignments, comma);
    PiecesAppend(head, body);
    PiecesAppend(head + body, tail);
    RenderPlaceholders(head + body + tail);
  }

  // ---------------------------------------------------------------------
  // Inserts

  /** `value || null` for an optional text column. */
  function Nullable(s: Option<string>): (p: SqlParam)
    ensures p == PNull <==> !Truthy(s)
    ensures p != PNull ==> p == PText(s.value)
  {
    if Truthy(s) then PText(s.value) else PNull
  }

  /** `p` is what `value || null` binds for `s`: the text itself when it is
      present and non-empty, and null otherwise. */
  predicate BindsNullable(p: SqlParam, s: Option<string>) {
    (p == PNull <==> !Truthy(s)) && (Truthy(s) ==> p == PText(s.value))
  }

  datatype NewItem = NewItem(
    id: string,
    url: Option<string>,
    title: Option<string>,
    rawText: Option<string>,
    rawImagePath: Option<string>,
    source: Option<string>)

  /** The parameters of `createItem(item)` at time `now`, in column order. */
  function CreateItemParams(item: NewItem, now: int): (p: seq<SqlParam>)
    ensures |p| == 7
    ensures p[0] == PText(item.id) && p[1] == PNum(Int(now))
    ensures BindsNullable(p[2], item.url) && BindsNullable(p[3], item.title)
      && BindsNullable(p[4], item.rawText) && BindsNullable(p[5], item.rawImagePath)
      && BindsNullable(p[6], item.source)
  {
    [PText(item.id), PNum(Int(now)), Nullable(item.url), Nullable(item.title),
     Nullable(item.rawText), Nullable(item.rawImagePath), Nullable(item.source)]
  }

  datatype NewAIOutput = NewAIOutput(
    id: string,
    itemId: string,
    modelName: string,
    summary: Option<string>,
    tags: Option<string>,
    srs: Option<string>)

  /** The parameters of `createAIOutput(output)` at time `now`, in column order. */
  function CreateAIOutputParams(output: NewAIOutput, now: int): (p: seq<SqlParam>)
    ensures |p| == 7
    ensures p[0] == PText(output.id) && p[1] == PText(output.itemId) && p[2] == PNum(Int(now))
      && p[3] == PText(output.modelName)
    ensures BindsNullable(p[4], output.summary) && BindsNullable(p[5], output.tags)
      && BindsNullable(p[6], output.srs)
  {
    [PText(output.id), PText(output.itemId), PNum(Int(now)), PText(output.modelName),
     Nullable(output.summary), Nullable(output.tags), Nullable(output.srs)]
  }

  datatype NewCard = NewCard(id: string, itemId: string, front: string, back: string, tags: Option<string>)

  /** The parameters of `createCard(card)` at time `now`, in column order. */
  function CreateCardParams(card: NewCard, now: int): (p: seq<SqlParam>)
    ensures |p| == 6
    ensures p[0] == PText(card.id) && p[1] == PText(card.itemId) && p[2] == PText(card.front)
      && p[3] == PText(card.back) && p[5] == PNum(Int(now))
    ensures BindsNullable(p[4], card.tags)
  {
    [PText(card.id), PText(card.itemId), PText(card.front), PText(card.back), Nullable(card.tags), PNum(Int(now))]
  }
}
