/**
 * The extractor run inside a detail page (server.js lines 103-126): a
 * label-to-value dictionary from the page's `.card-body dl` rows, and a
 * description from the first description element or, failing that, from
 * the start of the body text.
 */
module Details {
  import opened Wrappers
  import opened JsText
  import opened Records

  /** One `.card-body dl` row: the `innerText` of its `h3` and of its `p`; `None` where the element is absent. */
  datatype Row = Row(term: Option<string>, definition: Option<string>)

  /**
   * What a loaded detail page exposes: the `innerText` of the first `#job-description`,
   * `.job-description` or `.main-content` element (`None` if there is none), the body's
   * `innerText`, and the rows in document order.
   */
  datatype Page = Page(descriptionText: Option<string>, bodyText: string, rows: seq<Row>)

  /** How many characters of body text stand in for a missing description. */
  const FallbackLength := 1000

  /** Line 113: only a row with both an `h3` and a `p` contributes. */
  predicate Complete(row: Row) {
    row.term.Some? && row.definition.Some?
  }

  /** Line 114: the trimmed `h3` text. */
  function Label(row: Row): string
    requires Complete(row)
  {
    Trim(row.term.value)
  }

  /** Line 115: the trimmed `p` text. */
  function Value(row: Row): string
    requires Complete(row)
  {
    Trim(row.definition.value)
  }

  /**
   * The one label that `info[label] = value` cannot store: on a plain object `__proto__` is the
   * inherited accessor of `Object.prototype`, whose setter ignores a string value.
   */
  const ProtoKey := "__proto__"

  /** Line 116 stores the row's value: the row is complete and its label is not `__proto__`. */
  predicate Stores(row: Row) {
    Complete(row) && Label(row) != ProtoKey
  }

  /** The dictionary `info` once `rows.forEach` has visited every row: each storing row sets its label. */
  function LabelMap(rows: seq<Row>): (info: map<string, string>)
    ensures ProtoKey !in info
    ensures |info| <= |rows|
  {
    if rows == [] then map[]
    else
      var info := LabelMap(rows[..|rows| - 1]);
      var row := rows[|rows| - 1];
      if Stores(row) then info[Label(row) := Value(row)] else info
  }

  /** Some complete row carries `key`. */
  predicate Labelled(rows: seq<Row>, key: string) {
    exists i :: 0 <= i < |rows| && Complete(rows[i]) && Label(rows[i]) == key
  }

  /** Row `i` is the last complete row carrying `key`. */
  predicate LastWith(rows: seq<Row>, key: string, i: int) {
    && 0 <= i < |rows| && Complete(rows[i]) && Label(rows[i]) == key
    && forall j :: i < j < |rows| && Complete(rows[j]) ==> Label(rows[j]) != key
  }

  /**
   * A label is in the dictionary exactly when some complete row carries it and it is not
   * `__proto__`: rows lacking an `h3` or a `p` contribute nothing.
   */
  lemma {:induction false} LabelMapKeys(rows: seq<Row>, key: string)
    ensures key in LabelMap(rows) <==> key != ProtoKey && Labelled(rows, key)
  {
    if rows != [] {
      var n := |rows| - 1;
      var front := rows[..n];
      var row := rows[n];
      LabelMapKeys(front, key);
      var info := LabelMap(front);
      assert LabelMap(rows) == if Stores(row) then info[Label(row) := Value(row)] else info;
      var hit := Complete(row) && Label(row) == key;
      assert key in LabelMap(rows) <==> (hit && key != ProtoKey) || key in info;
      assert Labelled(rows, key) <==> hit || Labelled(front, key) by {
        if Labelled(rows, key) && !hit {
          var i :| 0 <= i < |rows| && Complete(rows[i]) && Label(rows[i]) == key;
          assert i < n;
          assert front[i] == rows[i];
        }
        if Labelled(front, key) {
          var i :| 0 <= i < |front| && Complete(front[i]) && Label(front[i]) == key;
          assert rows[i] == front[i];
        }
        if hit {
          assert Complete(rows[n]) && Label(rows[n]) == key;
        }
      }
    }
  }

  /** The value of a label is the value of the last complete row that carries it: a repeated label keeps the last value. */
  lemma {:induction false} LabelMapLastWins(rows: seq<Row>, key: string)
    requires key in LabelMap(rows)
    ensures exists i :: LastWith(rows, key, i) && LabelMap(rows)[key] == Value(rows[i])
  {
    var front := rows[..|rows| - 1];
    var row := rows[|rows| - 1];
    assert key != ProtoKey;
    if Complete(row) && Label(row) == key {
      assert LastWith(rows, key, |rows| - 1);
    } else {
      assert key in LabelMap(front);
      LabelMapLastWins(front, key);
      var i :| LastWith(front, key, i) && LabelMap(front)[key] == Value(front[i]);
      assert rows[i] == front[i];
      forall j | i < j < |rows| && Complete(rows[j])
        ensures Label(rows[j]) != key
      {
        if j < |rows| - 1 {
          assert rows[j] == front[j];
        }
      }
      assert LastWith(rows, key, i);
    }
  }

  /** Lines 108-118: `rows.forEach` fills `info` row by row. */
  method CollectLabels(rows: seq<Row>) returns (info: map<string, string>)
    ensures info == LabelMap(rows)
  {
    info := map[];
    var i := 0;
    while i < |rows|
      invariant 0 <= i <= |rows|
      invariant info == LabelMap(rows[..i])
    {
      var row := rows[i];
      if row.term.Some? && row.definition.Some? {
        var key := Trim(row.term.value);
        var value := Trim(row.definition.value);
        // `info[key] = value`; for `__proto__` the inherited setter ignores the string.
        if key != ProtoKey {
          info := info[key := value];
        }
      }
      assert rows[..i + 1][..i] == rows[..i];
      i := i + 1;
    }
    assert rows[..i] == rows;
  }

  /** Lines 121-123: the trimmed description element's text, or the first 1000 characters of the body. */
  function Description(page: Page): (d: string)
    ensures page.descriptionText.Some? ==> d == Trim(page.descriptionText.value)
    ensures page.descriptionText.None? ==>
              |d| <= FallbackLength && |d| <= |page.bodyText| && d == page.bodyText[..|d|] &&
              (|page.bodyText| <= FallbackLength ==> d == page.bodyText) &&
              (|page.bodyText| >= FallbackLength ==> |d| == FallbackLength)
  {
    match page.descriptionText
    case Some(t) => Trim(t)
    case None => Substring(page.bodyText, FallbackLength)
  }

  /** The label dictionary as object properties. */
  function InfoRecord(info: map<string, string>): (r: Record)
    ensures r.Keys == info.Keys
    ensures forall k :: k in info ==> r[k] == Str(info[k])
  {
    map k | k in info :: Str(info[k])
  }

  /** `{description: ..., ...info}`: the object the extractor returns. */
  function DetailsRecord(page: Page): Record {
    Spread(map["description" := Str(Description(page))], InfoRecord(LabelMap(page.rows)))
  }

  /**
   * The extracted object has a `description` and one property per label, never `__proto__`;
   * because `...info` is spread after `description`, a row labelled `description` replaces the
   * description.
   */
  lemma DetailsRecordShape(page: Page)
    ensures DetailsRecord(page).Keys == {"description"} + LabelMap(page.rows).Keys
    ensures ProtoKey !in DetailsRecord(page)
    ensures forall k :: k in LabelMap(page.rows) ==> DetailsRecord(page)[k] == Str(LabelMap(page.rows)[k])
    ensures "description" !in LabelMap(page.rows) ==> DetailsRecord(page)["description"] == Str(Description(page))
  {
  }

  /** Lines 103-126: the extraction as the page runs it. */
  method ExtractDetails(page: Page) returns (details: Record)
    ensures details == DetailsRecord(page)
  {
    var description := if page.descriptionText.Some? then Trim(page.descriptionText.value)
                       else Substring(page.bodyText, FallbackLength);
    var info := CollectLabels(page.rows);
    details := Spread(map["description" := Str(description)], InfoRecord(info));
  }
}
