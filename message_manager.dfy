/** The message manager: conversion of stored message rows into domain
    messages, per-conversation ordering, paging and the context window fed
    back to a provider, the shallow metadata merge, and the row-store
    updates behind sending, editing, retrying and clearing messages.

    The SQLite presenter is not part of the model: its table is the
    `rows` sequence of `MessageManager`, a fresh message id and the
    insertion time are parameters, and the event bus is the `edited` log. */
module Messages {
  import opened Wrappers

  // ---------------------------------------------------------------------
  // Stored rows and domain messages
  // ---------------------------------------------------------------------

  /** A JSON value as it can appear in message metadata. Numbers are kept
      as reals; nested arrays and objects are opaque. */
  datatype Value =
    | JsonNull
    | JsonBool(b: bool)
    | JsonNumber(n: real)
    | JsonString(s: string)
    | JsonComposite

  /** The metadata column as `JSON.parse` reads it: an object, some other
      JSON value (null, a number, a string, ...), or text that does not
      parse. */
  datatype MetadataText =
    | ObjectText(fields: map<string, Value>)
    | NonObjectText
    | MalformedText

  /** A `SQLITE_MESSAGE` row. `content` is kept as the stored text. */
  datatype Row = Row(
    id: string,
    conversationId: string,
    parentId: Option<string>,
    role: string,
    content: string,
    createdAt: int,
    orderSeq: int,
    status: string,
    metadata: MetadataText,
    tokenCount: int,
    isContextEdge: int,
    isVariant: int,
    variants: seq<Row>)

  datatype Usage = Usage(
    tokensPerSecond: Value,
    totalTokens: Value,
    generationTime: Value,
    firstTokenTime: Value,
    inputTokens: Value,
    outputTokens: Value,
    reasoningStartTime: Value,
    reasoningEndTime: Value)

  /** The domain `Message`. */
  datatype Message = Message(
    id: string,
    conversationId: string,
    parentId: Option<string>,
    role: string,
    content: string,
    timestamp: int,
    status: string,
    usage: Usage,
    avatar: string,
    name: string,
    modelName: Value,
    modelId: Value,
    modelProvider: Value,
    error: string,
    isVariant: int,
    variants: seq<Message>)

  datatype MessageError = MessageNotFound(id: string) | MalformedMetadata(id: string)

  const Zero: Value := JsonNumber(0.0)
  const Empty: Value := JsonString("")

  /** `metadata?.key ?? fallback`: the value stored under `key` when the
      metadata is an object holding a non-null value there. */
  function Field(meta: MetadataText, key: string, fallback: Value): Value
  {
    if meta.ObjectText? && key in meta.fields && meta.fields[key] != JsonNull then meta.fields[key]
    else fallback
  }

  /** `convertToMessage`, variants converted recursively. */
  function ConvertToMessage(row: Row): (m: Message)
    ensures m.id == row.id && m.conversationId == row.conversationId && m.parentId == row.parentId
    ensures m.role == row.role && m.content == row.content && m.timestamp == row.createdAt
    ensures m.status == row.status && m.isVariant == row.isVariant
    ensures |m.variants| == |row.variants|
    ensures forall i :: 0 <= i < |row.variants| ==> m.variants[i] == ConvertToMessage(row.variants[i])
    ensures m.avatar == "" && m.name == "" && m.error == ""
    decreases row
  {
    var meta := row.metadata;
    Message(
      row.id, row.conversationId, row.parentId, row.role, row.content, row.createdAt, row.status,
      Usage(
        Field(meta, "tokensPerSecond", Zero),
        Field(meta, "totalTokens", Zero),
        Field(meta, "generationTime", Zero),
        Field(meta, "firstTokenTime", Zero),
        Field(meta, "inputTokens", Zero),
        Field(meta, "outputTokens", Zero),
        Field(meta, "reasoningStartTime", Zero),
        Field(meta, "reasoningEndTime", Zero)),
      "", "",
      Field(meta, "model", Empty),
      Field(meta, "model", Empty),
      Field(meta, "provider", Empty),
      "",
      row.isVariant,
      seq(|row.variants|, i requires 0 <= i < |row.variants| => ConvertToMessage(row.variants[i])))
  }

  /** Metadata that is missing, not an object or unparsable yields zero
      counters and empty model fields. */
  lemma ConvertWithoutMetadata(row: Row)
    requires !row.metadata.ObjectText?
    ensures var m := ConvertToMessage(row);
            && m.usage == Usage(Zero, Zero, Zero, Zero, Zero, Zero, Zero, Zero)
            && m.modelName == Empty && m.modelId == Empty && m.modelProvider == Empty
  {
  }

  /** `v` is what `fields[key] ?? fallback` yields: the stored value when
      the key is present and not null, the fallback otherwise. */
  predicate Coalesced(fields: map<string, Value>, key: string, fallback: Value, v: Value)
  {
    && (key in fields && fields[key] != JsonNull ==> v == fields[key])
    && (key !in fields || fields[key] == JsonNull ==> v == fallback)
  }

  /** With object metadata every counter is the stored one when present and
      not null, and zero otherwise; `model_name` and `model_id` are both
      the stored `model`, and `model_provider` the stored `provider`, each
      `''` when missing or null. */
  lemma ConvertWithMetadata(row: Row, fields: map<string, Value>)
    requires row.metadata == ObjectText(fields)
    ensures var u := ConvertToMessage(row).usage;
            && Coalesced(fields, "tokensPerSecond", Zero, u.tokensPerSecond)
            && Coalesced(fields, "totalTokens", Zero, u.totalTokens)
            && Coalesced(fields, "generationTime", Zero, u.generationTime)
            && Coalesced(fields, "firstTokenTime", Zero, u.firstTokenTime)
            && Coalesced(fields, "inputTokens", Zero, u.inputTokens)
            && Coalesced(fields, "outputTokens", Zero, u.outputTokens)
            && Coalesced(fields, "reasoningStartTime", Zero, u.reasoningStartTime)
            && Coalesced(fields, "reasoningEndTime", Zero, u.reasoningEndTime)
    ensures var m := ConvertToMessage(row);
            && Coalesced(fields, "model", Empty, m.modelName)
            && Coalesced(fields, "model", Empty, m.modelId)
            && Coalesced(fields, "provider", Empty, m.modelProvider)
  {
  }

  function ConvertAll(rows: seq<Row>): (ms: seq<Message>)
    ensures |ms| == |rows|
    ensures forall i :: 0 <= i < |rows| ==> ms[i] == ConvertToMessage(rows[i])
  {
    seq(|rows|, i requires 0 <= i < |rows| => ConvertToMessage(rows[i]))
  }

  lemma ConvertAllSuffix(rows: seq<Row>, j: nat)
    requires j <= |rows|
    ensures ConvertAll(rows[j..]) == ConvertAll(rows)[j..]
  {
  }

  // ---------------------------------------------------------------------
  // Metadata merge
  // ---------------------------------------------------------------------

  /** `{ ...JSON.parse(text), ...patch }` for text that parses: an object
      spreads its fields, any other JSON value spreads nothing. */
  function MergeMetadata(text: MetadataText, patch: map<string, Value>): (merged: map<string, Value>)
    requires !text.MalformedText?
    ensures forall k :: k in merged <==> k in patch || (text.ObjectText? && k in text.fields)
    ensures forall k :: k in patch ==> merged[k] == patch[k]
    ensures text.ObjectText? ==> forall k :: k in text.fields && k !in patch ==> merged[k] == text.fields[k]
  {
    var base := if text.ObjectText? then text.fields else map[];
    base + patch
  }

  /** Merging with an empty patch keeps an object's fields, and a second
      merge of the same patch changes nothing. */
  lemma MergeMetadataIdempotent(text: MetadataText, patch: map<string, Value>)
    requires !text.MalformedText?
    ensures text.ObjectText? ==> MergeMetadata(text, map[]) == text.fields
    ensures MergeMetadata(ObjectText(MergeMetadata(text, patch)), patch) == MergeMetadata(text, patch)
  {
    var once := MergeMetadata(text, patch);
    assert MergeMetadata(ObjectText(once), patch) == once by {
      var twice := MergeMetadata(ObjectText(once), patch);
      assert forall k :: k in twice <==> k in once;
      assert forall k :: k in twice ==> twice[k] == once[k];
    }
    if text.ObjectText? {
      assert MergeMetadata(text, map[]) == text.fields by {
        var m := MergeMetadata(text, map[]);
        assert forall k :: k in m <==> k in text.fields;
      }
    }
  }

  // ---------------------------------------------------------------------
  // Row-store queries and updates
  // ---------------------------------------------------------------------

  /** `queryMessages(conversationId)`: the conversation's rows in store order. */
  function ConversationRows(rows: seq<Row>, conversationId: string): (rs: seq<Row>)
    ensures forall r :: r in rs <==> r in rows && r.conversationId == conversationId
    ensures multiset(rs) <= multiset(rows)
  {
    if rows == [] then []
    else
      var front := ConversationRows(rows[..|rows| - 1], conversationId);
      var last := rows[|rows| - 1];
      assert rows == rows[..|rows| - 1] + [last];
      if last.conversationId == conversationId then front + [last] else front
  }

  /** `getMaxOrderSeq(conversationId)`: the largest `order_seq` of the
      conversation, 0 when it has no rows. */
  function MaxOrderSeq(rows: seq<Row>, conversationId: string): (m: int)
    ensures forall r :: r in rows && r.conversationId == conversationId ==> r.orderSeq <= m
    ensures (exists r :: r in rows && r.conversationId == conversationId) ==>
              exists r :: r in rows && r.conversationId == conversationId && r.orderSeq == m
    ensures !(exists r :: r in rows && r.conversationId == conversationId) ==> m == 0
  {
    if rows == [] then 0
    else
      var front := MaxOrderSeq(rows[..|rows| - 1], conversationId);
      var last := rows[|rows| - 1];
      assert rows == rows[..|rows| - 1] + [last];
      if last.conversationId == conversationId && (front < last.orderSeq || (front == 0 && forall r :: r in rows[..|rows| - 1] ==> r.conversationId != conversationId))
      then last.orderSeq
      else front
  }

  /** `getMessage`: the row with that id. */
  function FindRow(rows: seq<Row>, id: string): (r: Option<Row>)
    ensures r.Some? ==> r.value in rows && r.value.id == id
    ensures r.None? ==> forall row :: row in rows ==> row.id != id
  {
    if rows == [] then None
    else if rows[0].id == id then Some(rows[0])
    else FindRow(rows[1..], id)
  }

  /** The columns `updateMessage` is called with. */
  datatype RowPatch =
    | SetContent(content: string)
    | SetStatus(status: string)
    | SetMetadata(metadata: MetadataText)
    | SetContextEdge(flag: int)

  function Patched(row: Row, p: RowPatch): Row
  {
    match p
    case SetContent(c) => row.(content := c)
    case SetStatus(s) => row.(status := s)
    case SetMetadata(m) => row.(metadata := m)
    case SetContextEdge(f) => row.(isContextEdge := f)
  }

  /** `updateMessage(id, patch)`: the rows with that id take the patch, all
      others stay as they are. */
  function UpdateRows(rows: seq<Row>, id: string, p: RowPatch): (rs: seq<Row>)
    ensures |rs| == |rows|
    ensures forall i :: 0 <= i < |rows| && rows[i].id != id ==> rs[i] == rows[i]
    ensures forall i :: 0 <= i < |rows| && rows[i].id == id ==> rs[i] == Patched(rows[i], p)
  {
    seq(|rows|, i requires 0 <= i < |rows| => if rows[i].id == id then Patched(rows[i], p) else rows[i])
  }

  /** `deleteAllMessagesInConversation`: the rows of the other conversations, in order. */
  function DeleteConversation(rows: seq<Row>, conversationId: string): (rs: seq<Row>)
    ensures forall r :: r in rs <==> r in rows && r.conversationId != conversationId
    ensures ConversationRows(rs, conversationId) == []
  {
    if rows == [] then []
    else
      var front := DeleteConversation(rows[..|rows| - 1], conversationId);
      var last := rows[|rows| - 1];
      assert rows == rows[..|rows| - 1] + [last];
      if last.conversationId != conversationId then front + [last] else front
  }

  /** Clearing one conversation leaves every other conversation's rows as
      they were, in the same order. */
  lemma {:induction false} DeleteKeepsOthers(rows: seq<Row>, c: string, other: string)
    requires other != c
    ensures ConversationRows(DeleteConversation(rows, c), other) == ConversationRows(rows, other)
  {
    if rows != [] {
      var front := rows[..|rows| - 1];
      var last := rows[|rows| - 1];
      DeleteKeepsOthers(front, c, other);
      if last.conversationId != c {
        ConversationRowsAppend(DeleteConversation(front, c), last, other);
      }
    }
  }

  lemma ConversationRowsAppend(rows: seq<Row>, last: Row, c: string)
    ensures ConversationRows(rows + [last], c) ==
              ConversationRows(rows, c) + (if last.conversationId == c then [last] else [])
  {
    assert (rows + [last])[..|rows + [last]| - 1] == rows;
  }

  // ---------------------------------------------------------------------
  // Ordering by (created_at, order_seq)
  // ---------------------------------------------------------------------

  /** `a` sorts strictly before `b` in conversation order. */
  predicate Before(a: Row, b: Row)
  {
    a.createdAt < b.createdAt || (a.createdAt == b.createdAt && a.orderSeq < b.orderSeq)
  }

  predicate SameKey(a: Row, b: Row)
  {
    a.createdAt == b.createdAt && a.orderSeq == b.orderSeq
  }

  /** The comparator of the ascending (`desc == false`) or descending sort
      says `a` goes before `b`. */
  predicate Precedes(a: Row, b: Row, desc: bool)
  {
    if desc then Before(b, a) else Before(a, b)
  }

  predicate SortedBy(s: seq<Row>, desc: bool)
  {
    forall i, j :: 0 <= i < j < |s| ==> !Precedes(s[j], s[i], desc)
  }

  /** Insert `x` into a sorted sequence after every element it does not
      strictly precede: the step of a stable insertion sort. */
  function Insert(s: seq<Row>, x: Row, desc: bool): (r: seq<Row>)
    requires SortedBy(s, desc)
    ensures SortedBy(r, desc)
    ensures multiset(r) == multiset(s) + multiset{x}
    ensures forall y :: y in r ==> y in s || y == x
    ensures |r| == |s| + 1
  {
    if s == [] then [x]
    else if Precedes(x, s[0], desc) then
      ConsSorted(x, s, desc);
      [x] + s
    else
      var rest := Insert(s[1..], x, desc);
      ConsSorted(s[0], rest, desc);
      assert s == [s[0]] + s[1..];
      [s[0]] + rest
  }

  /** A sorted sequence stays sorted behind a head that no element of it
      precedes. */
  lemma ConsSorted(x: Row, s: seq<Row>, desc: bool)
    requires SortedBy(s, desc)
    requires (forall y :: y in s ==> !Precedes(y, x, desc)) || (s != [] && Precedes(x, s[0], desc))
    ensures SortedBy([x] + s, desc)
  {
    var r := [x] + s;
    forall i, j | 0 <= i < j < |r| ensures !Precedes(r[j], r[i], desc) {
      if i > 0 {
        assert r[i] == s[i - 1] && r[j] == s[j - 1];
      } else {
        assert r[j] == s[j - 1];
        assert r[j] in s;
      }
    }
  }

  /** `Array.prototype.sort` with the (created_at, order_seq) comparator:
      a stable sort, ascending or descending. Rows with equal keys keep
      their stored relative order. */
  function SortBy(s: seq<Row>, desc: bool): (r: seq<Row>)
    ensures SortedBy(r, desc)
    ensures multiset(r) == multiset(s)
    ensures |r| == |s|
    ensures forall c, o :: WithKey(r, c, o) == WithKey(s, c, o)
  {
    if s == [] then []
    else
      var front, last := s[..|s| - 1], s[|s| - 1];
      assert s == front + [last];
      var sorted := SortBy(front, desc);
      InsertKeepsAllTies(sorted, last, desc);
      AppendKeepsAllTies(front, [last]);
      Insert(sorted, last, desc)
  }

  /** `[r]` when `r` carries the key `(createdAt, orderSeq)`, else `[]`. */
  function Tie(r: Row, createdAt: int, orderSeq: int): seq<Row>
  {
    if r.createdAt == createdAt && r.orderSeq == orderSeq then [r] else []
  }

  /** The rows carrying the key `(createdAt, orderSeq)`, in their order. */
  function WithKey(s: seq<Row>, createdAt: int, orderSeq: int): seq<Row>
  {
    if s == [] then [] else Tie(s[0], createdAt, orderSeq) + WithKey(s[1..], createdAt, orderSeq)
  }

  lemma {:induction false} WithKeyAppend(a: seq<Row>, b: seq<Row>, createdAt: int, orderSeq: int)
    ensures WithKey(a + b, createdAt, orderSeq) == WithKey(a, createdAt, orderSeq) + WithKey(b, createdAt, orderSeq)
  {
    if a == [] {
      assert a + b == b;
    } else {
      var ab := a + b;
      assert ab[0] == a[0] && ab[1..] == a[1..] + b;
      WithKeyAppend(a[1..], b, createdAt, orderSeq);
      assert WithKey(ab, createdAt, orderSeq) == Tie(a[0], createdAt, orderSeq) + WithKey(ab[1..], createdAt, orderSeq);
    }
  }

  lemma {:induction false} WithKeyNone(s: seq<Row>, createdAt: int, orderSeq: int)
    requires forall y :: y in s ==> Tie(y, createdAt, orderSeq) == []
    ensures WithKey(s, createdAt, orderSeq) == []
  {
    if s != [] {
      assert s[0] in s;
      assert forall y :: y in s[1..] ==> y in s;
      WithKeyNone(s[1..], createdAt, orderSeq);
    }
  }

  /** Inserting `x` puts it behind every row with the same key. */
  lemma {:induction false} InsertKeepsTies(s: seq<Row>, x: Row, desc: bool, createdAt: int, orderSeq: int)
    requires SortedBy(s, desc)
    ensures WithKey(Insert(s, x, desc), createdAt, orderSeq) ==
              WithKey(s, createdAt, orderSeq) + Tie(x, createdAt, orderSeq)
  {
    if s == [] {
      assert Insert(s, x, desc) == [x];
      assert WithKey([x], createdAt, orderSeq) == Tie(x, createdAt, orderSeq) + WithKey([], createdAt, orderSeq);
    } else if Precedes(x, s[0], desc) {
      InsertInFront(s, x, desc, createdAt, orderSeq);
    } else {
      var rest := Insert(s[1..], x, desc);
      InsertKeepsTies(s[1..], x, desc, createdAt, orderSeq);
      InsertBehindHead(s, x, desc);
      ConsTies(s[0], rest, createdAt, orderSeq);
      ConcatAssoc(Tie(s[0], createdAt, orderSeq), WithKey(s[1..], createdAt, orderSeq), Tie(x, createdAt, orderSeq));
    }
  }

  lemma InsertInFront(s: seq<Row>, x: Row, desc: bool, createdAt: int, orderSeq: int)
    requires SortedBy(s, desc) && s != [] && Precedes(x, s[0], desc)
    ensures WithKey(Insert(s, x, desc), createdAt, orderSeq) ==
              WithKey(s, createdAt, orderSeq) + Tie(x, createdAt, orderSeq)
  {
    assert Insert(s, x, desc) == [x] + s;
    TiesBeforeHead(s, x, desc, createdAt, orderSeq);
  }

  lemma InsertBehindHead(s: seq<Row>, x: Row, desc: bool)
    requires SortedBy(s, desc) && s != [] && !Precedes(x, s[0], desc)
    ensures Insert(s, x, desc) == [s[0]] + Insert(s[1..], x, desc)
  {
  }

  lemma ConcatAssoc(a: seq<Row>, b: seq<Row>, c: seq<Row>)
    ensures a + (b + c) == (a + b) + c
  {
  }

  /** The ties of `[h] + t`: `h`'s, then `t`'s. */
  lemma ConsTies(h: Row, t: seq<Row>, createdAt: int, orderSeq: int)
    ensures WithKey([h] + t, createdAt, orderSeq) == Tie(h, createdAt, orderSeq) + WithKey(t, createdAt, orderSeq)
  {
    assert ([h] + t)[1..] == t;
  }

  /** A row that sorts strictly before the head of a sorted sequence has
      no tie in it, so putting it in front keeps the order of ties. */
  lemma TiesBeforeHead(s: seq<Row>, x: Row, desc: bool, createdAt: int, orderSeq: int)
    requires SortedBy(s, desc) && s != [] && Precedes(x, s[0], desc)
    ensures WithKey([x] + s, createdAt, orderSeq) == WithKey(s, createdAt, orderSeq) + Tie(x, createdAt, orderSeq)
  {
    if Tie(x, createdAt, orderSeq) != [] {
      forall y | y in s ensures Tie(y, createdAt, orderSeq) == [] {
        var j :| 0 <= j < |s| && s[j] == y;
        if j > 0 {
          assert !Precedes(s[j], s[0], desc);
        }
      }
      WithKeyNone(s, createdAt, orderSeq);
    }
    assert ([x] + s)[1..] == s;
  }

  lemma InsertKeepsAllTies(s: seq<Row>, x: Row, desc: bool)
    requires SortedBy(s, desc)
    ensures forall c, o :: WithKey(Insert(s, x, desc), c, o) == WithKey(s, c, o) + WithKey([x], c, o)
  {
    forall c, o ensures WithKey(Insert(s, x, desc), c, o) == WithKey(s, c, o) + WithKey([x], c, o) {
      InsertKeepsTies(s, x, desc, c, o);
      assert WithKey([x], c, o) == Tie(x, c, o) + WithKey([], c, o);
    }
  }

  lemma AppendKeepsAllTies(a: seq<Row>, b: seq<Row>)
    ensures forall c, o :: WithKey(a + b, c, o) == WithKey(a, c, o) + WithKey(b, c, o)
  {
    forall c, o ensures WithKey(a + b, c, o) == WithKey(a, c, o) + WithKey(b, c, o) {
      WithKeyAppend(a, b, c, o);
    }
  }

  // ---------------------------------------------------------------------
  // Thread pages and the context window
  // ---------------------------------------------------------------------

  datatype ThreadPage = ThreadPage(total: int, list: seq<Message>)

  /** The first index of a page, counted in whole pages from page 1. */
  function PageStart(page: int, pageSize: int): int
    decreases if page < 1 then 1 - page else page - 1
  {
    if page == 1 then 0
    else if page > 1 then PageStart(page - 1, pageSize) + pageSize
    else PageStart(page + 1, pageSize) - pageSize
  }

  /** It is `(page - 1) * pageSize`, for every page number. */
  lemma {:induction false} PageStartProduct(page: int, pageSize: int)
    ensures PageStart(page, pageSize) == (page - 1) * pageSize
    decreases if page < 1 then 1 - page else page - 1
  {
    if page > 1 {
      PageStartProduct(page - 1, pageSize);
    } else if page < 1 {
      PageStartProduct(page + 1, pageSize);
    }
  }

  /** Each page ends where the next one starts: `end = start + pageSize`. */
  lemma PageEnd(page: int, pageSize: int)
    ensures PageStart(page + 1, pageSize) == PageStart(page, pageSize) + pageSize
  {
  }

  /** The page `[start, start + pageSize)` of a list, as `slice` cuts it;
      by `PageEnd` its end is the next page's start. */
  function Page<T>(all: seq<T>, page: int, pageSize: int): seq<T>
  {
    JsSlice(all, PageStart(page, pageSize), PageStart(page + 1, pageSize))
  }

  /** Pages from page 1 on start at a non-negative index. */
  lemma {:induction false} PageStartNonNegative(page: int, pageSize: int)
    requires page >= 1 && pageSize >= 0
    ensures PageStart(page, pageSize) >= 0
    decreases page
  {
    if page > 1 {
      PageStartNonNegative(page - 1, pageSize);
    }
  }

  /** No page is longer than the page size, and two consecutive pages are
      the two halves of the double-size window they start. */
  lemma PagesTile<T>(all: seq<T>, page: int, pageSize: int)
    requires page >= 1 && pageSize >= 0
    ensures |Page(all, page, pageSize)| <= pageSize
    ensures PageStart(page + 2, pageSize) == PageStart(page, pageSize) + 2 * pageSize
    ensures Page(all, page, pageSize) + Page(all, page + 1, pageSize)
            == JsSlice(all, PageStart(page, pageSize), PageStart(page + 2, pageSize))
  {
    var a := PageStart(page, pageSize);
    var b := PageStart(page + 1, pageSize);
    var e := PageStart(page + 2, pageSize);
    PageStartNonNegative(page, pageSize);
    PageEnd(page, pageSize);
    PageEnd(page + 1, pageSize);
    PageLength(all, a, b);
    JsSliceAdjacent(all, a, b, e);
  }

  /** A slice from a non-negative start is no longer than its window. */
  lemma PageLength<T>(all: seq<T>, a: int, b: int)
    requires 0 <= a <= b
    ensures |JsSlice(all, a, b)| <= b - a
  {
  }

  /** Every message of the conversation in ascending order, converted. */
  function SortedMessages(rows: seq<Row>, conversationId: string): (ms: seq<Message>)
    ensures |ms| == |ConversationRows(rows, conversationId)|
  {
    ConvertAll(SortBy(ConversationRows(rows, conversationId), false))
  }

  /** `getMessageThread`: the total and one page of the sorted messages. */
  function Thread(rows: seq<Row>, conversationId: string, page: int, pageSize: int): (t: ThreadPage)
    ensures t.total == |ConversationRows(rows, conversationId)|
    ensures t.list == JsSlice(SortedMessages(rows, conversationId), (page - 1) * pageSize, (page - 1) * pageSize + pageSize)
  {
    var messages := SortedMessages(rows, conversationId);
    PageStartProduct(page, pageSize);
    PageEnd(page, pageSize);
    ThreadPage(|messages|, Page(messages, page, pageSize))
  }

  /** The rows of `getContextMessages` before conversion: the first `count`
      of the descending order, re-sorted ascending. */
  function ContextRows(rows: seq<Row>, conversationId: string, count: int): (cs: seq<Row>)
    ensures SortedBy(cs, false)
    ensures multiset(cs) <= multiset(ConversationRows(rows, conversationId))
    ensures count >= 0 ==> |cs| == Min(count, |ConversationRows(rows, conversationId)|)
  {
    var desc := SortBy(ConversationRows(rows, conversationId), true);
    SortBy(JsSlice(desc, 0, count), false)
  }

  function Min(a: int, b: int): int
  {
    if a < b then a else b
  }

  /** The messages `getContextMessages` returns. */
  function ContextMessages(rows: seq<Row>, conversationId: string, count: int): (ms: seq<Message>)
    ensures count >= 0 ==> |ms| == Min(count, |ConversationRows(rows, conversationId)|)
  {
    ConvertAll(ContextRows(rows, conversationId, count))
  }

  /** With unique keys the context messages are the last ones of the
      sorted thread. */
  lemma ContextMessagesAreLast(rows: seq<Row>, c: string, count: int)
    requires count >= 0
    requires DistinctKeys(ConversationRows(rows, c))
    ensures var all := SortedMessages(rows, c);
            var ms := ContextMessages(rows, c, count);
            ms == all[|all| - |ms|..]
  {
    var asc := SortBy(ConversationRows(rows, c), false);
    var k := Min(count, |asc|);
    ContextIsLastOfThread(rows, c, count);
    ConvertAllSuffix(asc, |asc| - k);
  }

  /** No two rows of the multiset share a (created_at, order_seq) key, and
      none occurs twice. */
  ghost predicate KeysUnique(m: multiset<Row>)
  {
    && (forall x :: x in m ==> m[x] == 1)
    && (forall x, y :: x in m && y in m && SameKey(x, y) ==> x == y)
  }

  /** No two positions of the sequence share a key. */
  ghost predicate DistinctKeys(s: seq<Row>)
  {
    forall i, j :: 0 <= i < j < |s| ==> !SameKey(s[i], s[j])
  }

  lemma {:induction false} DistinctKeysUnique(s: seq<Row>)
    requires DistinctKeys(s)
    ensures KeysUnique(multiset(s))
  {
    if s != [] {
      var front := s[..|s| - 1];
      var last := s[|s| - 1];
      assert s == front + [last];
      DistinctKeysUnique(front);
      assert forall z :: z in front ==> !SameKey(z, last) by {
        forall i | 0 <= i < |front| ensures !SameKey(front[i], last) {
          assert front[i] == s[i];
        }
      }
    }
  }

  /** With unique keys there is only one sorted arrangement of a multiset. */
  lemma {:induction false} SortedUnique(a: seq<Row>, b: seq<Row>, desc: bool)
    requires SortedBy(a, desc) && SortedBy(b, desc)
    requires multiset(a) == multiset(b) && KeysUnique(multiset(a))
    ensures a == b
    decreases |a|
  {
    assert |b| == |multiset(b)| == |multiset(a)| == |a|;
    if a != [] {
      SortedHeads(a, b, desc);
      SortedTails(a, b, desc);
      SortedUnique(a[1..], b[1..], desc);
      assert a == [a[0]] + a[1..] && b == [b[0]] + b[1..];
    }
  }

  lemma SortedTails(a: seq<Row>, b: seq<Row>, desc: bool)
    requires a != [] && b != [] && a[0] == b[0]
    requires SortedBy(a, desc) && SortedBy(b, desc)
    requires multiset(a) == multiset(b) && KeysUnique(multiset(a))
    ensures SortedBy(a[1..], desc) && SortedBy(b[1..], desc)
    ensures multiset(a[1..]) == multiset(b[1..]) && KeysUnique(multiset(a[1..]))
  {
    SortedTail(a, desc);
    SortedTail(b, desc);
    TailMultiset(a, b);
    KeysUniqueSub(multiset(a), multiset(a[1..]));
  }

  lemma SortedTail(s: seq<Row>, desc: bool)
    requires s != [] && SortedBy(s, desc)
    ensures SortedBy(s[1..], desc)
  {
  }

  lemma TailMultiset(a: seq<Row>, b: seq<Row>)
    requires a != [] && b != [] && a[0] == b[0] && multiset(a) == multiset(b)
    ensures multiset(a[1..]) == multiset(b[1..]) && multiset(a[1..]) <= multiset(a)
  {
    assert a == [a[0]] + a[1..] && b == [b[0]] + b[1..];
    assert multiset(a[1..]) == multiset(a) - multiset{a[0]};
  }

  lemma KeysUniqueSub(m: multiset<Row>, sub: multiset<Row>)
    requires sub <= m && KeysUnique(m)
    ensures KeysUnique(sub)
  {
  }

  /** Two sorted arrangements of a multiset with unique keys start alike. */
  lemma SortedHeads(a: seq<Row>, b: seq<Row>, desc: bool)
    requires a != [] && |b| == |a|
    requires SortedBy(a, desc) && SortedBy(b, desc)
    requires multiset(a) == multiset(b) && KeysUnique(multiset(a))
    ensures a[0] == b[0]
  {
    assert a[0] in multiset(b) && b[0] in multiset(a);
    var i :| 0 <= i < |a| && a[i] == b[0];
    var j :| 0 <= j < |b| && b[j] == a[0];
    assert !Precedes(a[i], a[0], desc) && !Precedes(b[j], b[0], desc);
    assert SameKey(a[0], b[0]);
  }

  function Reverse(s: seq<Row>): (r: seq<Row>)
  {
    seq(|s|, i requires 0 <= i < |s| => s[|s| - 1 - i])
  }

  lemma {:induction false} ReverseMultiset(s: seq<Row>)
    ensures multiset(Reverse(s)) == multiset(s)
  {
    if s != [] {
      ReverseMultiset(s[1..]);
      assert Reverse(s) == Reverse(s[1..]) + [s[0]];
      assert s == [s[0]] + s[1..];
    }
  }

  lemma ReversePrefix(s: seq<Row>, k: nat)
    requires k <= |s|
    ensures Reverse(s)[..k] == Reverse(s[|s| - k..])
  {
    var front := Reverse(s)[..k];
    var back := Reverse(s[|s| - k..]);
    assert |front| == |back|;
    forall i | 0 <= i < k ensures front[i] == back[i] {
      assert back[i] == s[|s| - k..][k - 1 - i];
    }
  }

  lemma ReverseSorted(s: seq<Row>)
    requires SortedBy(s, false)
    ensures SortedBy(Reverse(s), true)
  {
  }

  /** When the keys of a conversation are unique, the context window of
      `count >= 0` messages is the last `count` messages of the full
      ascending thread. */
  lemma ContextIsLastOfThread(rows: seq<Row>, c: string, count: int)
    requires count >= 0
    requires DistinctKeys(ConversationRows(rows, c))
    ensures var asc := SortBy(ConversationRows(rows, c), false);
            var k := Min(count, |asc|);
            ContextRows(rows, c, count) == asc[|asc| - k..]
  {
    var conv := ConversationRows(rows, c);
    var asc := SortBy(conv, false);
    var desc := SortBy(conv, true);
    var k := Min(count, |asc|);
    DescendingIsReversed(conv);
    assert JsSlice(desc, 0, count) == Reverse(asc)[..k];
    SortedLastOfReversed(asc, k);
  }

  /** With unique keys, the descending sort is the ascending one reversed. */
  lemma DescendingIsReversed(conv: seq<Row>)
    requires DistinctKeys(conv)
    ensures SortBy(conv, true) == Reverse(SortBy(conv, false))
    ensures KeysUnique(multiset(SortBy(conv, false)))
  {
    var asc := SortBy(conv, false);
    DistinctKeysUnique(conv);
    ReverseMultiset(asc);
    ReverseSorted(asc);
    SortedUnique(SortBy(conv, true), Reverse(asc), true);
  }

  /** Sorting the first `k` of a reversed sorted sequence gives back its
      last `k`. */
  lemma SortedLastOfReversed(asc: seq<Row>, k: nat)
    requires k <= |asc| && SortedBy(asc, false) && KeysUnique(multiset(asc))
    ensures SortBy(Reverse(asc)[..k], false) == asc[|asc| - k..]
  {
    var tail := asc[|asc| - k..];
    ReversePrefix(asc, k);
    ReverseMultiset(tail);
    SortedSuffix(asc, |asc| - k, false);
    SuffixMultiset(asc, |asc| - k);
    KeysUniqueSub(multiset(asc), multiset(tail));
    SortedUnique(SortBy(Reverse(tail), false), tail, false);
  }

  lemma SortedSuffix(s: seq<Row>, j: nat, desc: bool)
    requires j <= |s| && SortedBy(s, desc)
    ensures SortedBy(s[j..], desc)
  {
  }

  lemma SuffixMultiset<T>(s: seq<T>, j: nat)
    requires j <= |s|
    ensures multiset(s[j..]) <= multiset(s)
  {
    assert s == s[..j] + s[j..];
  }

  // ---------------------------------------------------------------------
  // The manager
  // ---------------------------------------------------------------------

  datatype Attachment = Attachment(messageId: string, kind: string, data: string)

  /** The row `sendMessage` inserts. */
  function NewRow(rows: seq<Row>, id: string, conversationId: string, content: string, role: string,
                  parentId: string, isVariant: bool, metadata: map<string, Value>, now: int): Row
  {
    Row(id, conversationId, Some(parentId), role, content, now, MaxOrderSeq(rows, conversationId) + 1,
        "pending", ObjectText(metadata), 0, 0, if isVariant then 1 else 0, [])
  }

  /** A message sent to a conversation sorts after every message already in
      it, and its `order_seq` is new there. */
  lemma NewRowIsLast(rows: seq<Row>, id: string, c: string, content: string, role: string,
                     parentId: string, isVariant: bool, metadata: map<string, Value>, now: int)
    ensures var row := NewRow(rows, id, c, content, role, parentId, isVariant, metadata, now);
            forall r :: r in rows && r.conversationId == c ==> r.orderSeq < row.orderSeq && !SameKey(r, row)
  {
  }

  /** Ids are unique, and so is `order_seq` within a conversation. */
  predicate WellFormed(rows: seq<Row>)
  {
    && (forall i, j :: 0 <= i < j < |rows| ==> rows[i].id != rows[j].id)
    && (forall i, j :: 0 <= i < j < |rows| && rows[i].conversationId == rows[j].conversationId ==>
          rows[i].orderSeq != rows[j].orderSeq)
  }

  /** Appending a row with a fresh id and an `order_seq` above those of its
      conversation keeps the table well formed, and `getMessage` finds it. */
  lemma AppendWellFormed(rows: seq<Row>, row: Row)
    requires forall r :: r in rows ==> r.id != row.id
    requires forall r :: r in rows && r.conversationId == row.conversationId ==> r.orderSeq < row.orderSeq
    ensures WellFormed(rows) ==> WellFormed(rows + [row])
    ensures FindRow(rows + [row], row.id) == Some(row)
  {
    var all := rows + [row];
    if WellFormed(rows) {
      forall i, j | 0 <= i < j < |all| ensures all[i].id != all[j].id {
        if j == |rows| {
          assert all[i] in rows;
        }
      }
    }
    FindAppended(rows, row);
  }

  lemma {:induction false} FindAppended(rows: seq<Row>, row: Row)
    requires forall r :: r in rows ==> r.id != row.id
    ensures FindRow(rows + [row], row.id) == Some(row)
  {
    if rows != [] {
      assert (rows + [row])[1..] == rows[1..] + [row];
      FindAppended(rows[1..], row);
    }
  }

  class MessageManager {
    /** The message table of the store. */
    var rows: seq<Row>
    var attachments: seq<Attachment>
    /** Ids published as MESSAGE_EDITED, oldest first. */
    var edited: seq<string>

    /** Ids are unique, and so is `order_seq` within a conversation. */
    predicate Valid()
      reads this`rows
    {
      WellFormed(rows)
    }

    constructor (stored: seq<Row>)
      ensures rows == stored && attachments == [] && edited == []
    {
      rows := stored;
      attachments := [];
      edited := [];
    }

    function GetMessage(id: string): (r: Result<Message, MessageError>)
      reads this`rows
      ensures r.Success? <==> exists row :: row in rows && row.id == id
      ensures r.Success? ==> r.value.id == id && exists row :: row in rows && r.value == ConvertToMessage(row)
      ensures r.Failure? ==> r.error == MessageNotFound(id)
    {
      var row := FindRow(rows, id);
      if row.Some? then Success(ConvertToMessage(row.value)) else Failure(MessageNotFound(id))
    }

    function GetMessageThread(conversationId: string, page: int, pageSize: int): (t: ThreadPage)
      reads this`rows
      ensures t.total == |ConversationRows(rows, conversationId)|
      ensures page >= 1 && pageSize >= 0 ==> |t.list| <= pageSize
      ensures t.list == JsSlice(SortedMessages(rows, conversationId), (page - 1) * pageSize, (page - 1) * pageSize + pageSize)
    {
      if page >= 1 && pageSize >= 0 then
        PagesTile(SortedMessages(rows, conversationId), page, pageSize);
        Thread(rows, conversationId, page, pageSize)
      else Thread(rows, conversationId, page, pageSize)
    }

    /** `getContextMessages`: on a valid store, the last `count` messages
        of the thread, in ascending order. */
    function GetContextMessages(conversationId: string, count: int): (ms: seq<Message>)
      reads this`rows
      ensures count >= 0 ==> |ms| == Min(count, |ConversationRows(rows, conversationId)|)
    {
      ContextMessages(rows, conversationId, count)
    }

    /** On a valid store the context window of `count >= 0` messages is the
        tail of the full thread: the last `count` messages, oldest first. */
    lemma ContextWindowIsThreadTail(conversationId: string, count: int)
      requires Valid() && count >= 0
      ensures var all := SortedMessages(rows, conversationId);
              var ms := GetContextMessages(conversationId, count);
              ms == all[|all| - |ms|..]
    {
      ValidKeysDistinct(conversationId);
      ContextMessagesAreLast(rows, conversationId, count);
    }

    lemma ValidKeysDistinct(c: string)
      requires Valid()
      ensures DistinctKeys(ConversationRows(rows, c))
    {
      var conv := ConversationRows(rows, c);
      forall i, j | 0 <= i < j < |conv| ensures !SameKey(conv[i], conv[j]) {
        ConversationRowsPositions(rows, c, i, j);
      }
    }

    /** `sendMessage`: insert the row with the next `order_seq`, attach the
        search results when there are any, and return the stored message. */
    method SendMessage(conversationId: string, content: string, role: string, parentId: string,
                       isVariant: bool, metadata: map<string, Value>, searchResults: Option<string>,
                       newId: string, now: int)
      returns (m: Message)
      requires forall row :: row in rows ==> row.id != newId
      modifies this`rows, this`attachments
      ensures var row := NewRow(old(rows), newId, conversationId, content, role, parentId, isVariant, metadata, now);
              && rows == old(rows) + [row]
              && m == ConvertToMessage(row)
      ensures attachments == old(attachments) +
                (if Truthy(searchResults) then [Attachment(newId, "search_results", searchResults.value)] else [])
      ensures old(Valid()) ==> Valid()
    {
      var row := NewRow(rows, newId, conversationId, content, role, parentId, isVariant, metadata, now);
      NewRowIsLast(rows, newId, conversationId, content, role, parentId, isVariant, metadata, now);
      AppendWellFormed(rows, row);
      rows := rows + [row];
      if Truthy(searchResults) {
        attachments := attachments + [Attachment(newId, "search_results", searchResults.value)];
      }
      var stored := GetMessage(newId);
      m := stored.value;
    }

    /** `editMessage`: replace the content, then read the row back; a
        missing row throws. MESSAGE_EDITED goes out for the id and then for
        a non-empty parent id. */
    method EditMessage(messageId: string, content: string) returns (r: Result<Message, MessageError>)
      modifies this`rows, this`edited
      ensures rows == UpdateRows(old(rows), messageId, SetContent(content))
      ensures r == GetMessage(messageId)
      ensures r.Failure? ==> edited == old(edited)
      ensures r.Success? ==>
                edited == old(edited) + [messageId] + (if Truthy(r.value.parentId) then [r.value.parentId.value] else [])
      ensures r.Success? ==> r.value.content == content
    {
      rows := UpdateRows(rows, messageId, SetContent(content));
      var row := FindRow(rows, messageId);
      if row.None? {
        return Failure(MessageNotFound(messageId));
      }
      var msg := ConvertToMessage(row.value);
      edited := edited + [messageId];
      if Truthy(msg.parentId) {
        edited := edited + [msg.parentId.value];
      }
      return Success(msg);
    }

    /** `retryMessage`: a new variant row with empty content in the
        original's conversation, with its role and parent; the original row
        is left as it is. */
    method RetryMessage(messageId: string, metadata: map<string, Value>, newId: string, now: int)
      returns (r: Result<Message, MessageError>)
      requires forall row :: row in rows ==> row.id != newId
      modifies this`rows, this`attachments
      ensures old(GetMessage(messageId)).Failure? ==>
                r == old(GetMessage(messageId)) && rows == old(rows) && attachments == old(attachments)
      ensures old(GetMessage(messageId)).Success? ==>
                var original := old(GetMessage(messageId)).value;
                var parent := if Truthy(original.parentId) then original.parentId.value else "";
                && rows == old(rows) + [NewRow(old(rows), newId, original.conversationId, "[]", original.role,
                                               parent, true, metadata, now)]
                && r.Success? && r.value.isVariant == 1 && r.value.parentId == Some(parent)
                && r.value.conversationId == original.conversationId && r.value.role == original.role
      ensures attachments == old(attachments)
      ensures old(Valid()) ==> Valid()
    {
      var original := GetMessage(messageId);
      if original.Failure? {
        return original;
      }
      var parent := if Truthy(original.value.parentId) then original.value.parentId.value else "";
      var variant := SendMessage(original.value.conversationId, "[]", original.value.role, parent, true,
                                 metadata, None, newId, now);
      return Success(variant);
    }

    method UpdateMessageStatus(messageId: string, status: string)
      modifies this`rows
      ensures rows == UpdateRows(old(rows), messageId, SetStatus(status))
    {
      rows := UpdateRows(rows, messageId, SetStatus(status));
    }

    /** `updateMessageMetadata`: a missing row is ignored, unparsable
        metadata throws, otherwise the patch is merged over the stored
        fields. */
    method UpdateMessageMetadata(messageId: string, patch: map<string, Value>) returns (r: Outcome<MessageError>)
      modifies this`rows
      ensures FindRow(old(rows), messageId).None? ==> r == Pass && rows == old(rows)
      ensures FindRow(old(rows), messageId).Some? && FindRow(old(rows), messageId).value.metadata.MalformedText? ==>
                r == Fail(MalformedMetadata(messageId)) && rows == old(rows)
      ensures FindRow(old(rows), messageId).Some? && !FindRow(old(rows), messageId).value.metadata.MalformedText? ==>
                && r == Pass
                && rows == UpdateRows(old(rows), messageId,
                                      SetMetadata(ObjectText(MergeMetadata(FindRow(old(rows), messageId).value.metadata, patch))))
    {
      var row := FindRow(rows, messageId);
      if row.None? {
        return Pass;
      }
      if row.value.metadata.MalformedText? {
        return Fail(MalformedMetadata(messageId));
      }
      var merged := MergeMetadata(row.value.metadata, patch);
      rows := UpdateRows(rows, messageId, SetMetadata(ObjectText(merged)));
      return Pass;
    }

    method MarkMessageAsContextEdge(messageId: string, isEdge: bool)
      modifies this`rows
      ensures rows == UpdateRows(old(rows), messageId, SetContextEdge(if isEdge then 1 else 0))
    {
      rows := UpdateRows(rows, messageId, SetContextEdge(if isEdge then 1 else 0));
    }

    method ClearAllMessages(conversationId: string)
      modifies this`rows
      ensures rows == DeleteConversation(old(rows), conversationId)
      ensures ConversationRows(rows, conversationId) == []
      ensures forall other :: other != conversationId ==>
                ConversationRows(rows, other) == ConversationRows(old(rows), other)
    {
      rows := DeleteConversation(rows, conversationId);
      forall other | other != conversationId
        ensures ConversationRows(rows, other) == ConversationRows(old(rows), other)
      {
        DeleteKeepsOthers(old(rows), conversationId, other);
      }
    }
  }

  /** Two positions of a conversation's rows come from two positions of the
      table, in the same order. */
  lemma {:induction false} ConversationRowsPositions(rows: seq<Row>, c: string, i: nat, j: nat)
    requires i < j < |ConversationRows(rows, c)|
    ensures exists p, q :: 0 <= p < q < |rows| && rows[p] == ConversationRows(rows, c)[i] && rows[q] == ConversationRows(rows, c)[j]
  {
    var front := rows[..|rows| - 1];
    var last := rows[|rows| - 1];
    var cf := ConversationRows(front, c);
    if j < |cf| {
      ConversationRowsPositions(front, c, i, j);
      var p, q :| 0 <= p < q < |front| && front[p] == cf[i] && front[q] == cf[j];
      assert rows[p] == front[p] && rows[q] == front[q];
    } else {
      assert ConversationRows(rows, c)[i] == cf[i];
      assert cf[i] in front;
      var p :| 0 <= p < |front| && front[p] == cf[i];
      assert rows[p] == front[p];
      assert rows[|rows| - 1] == ConversationRows(rows, c)[j];
    }
  }
}
