/** frontend/src/pages/ArticleManagement.js: the list handlers of the article
    page and its statistics. Articles are plain objects (module Json); an id
    or a status matches by `===` on primitive values. */
module ArticleManagement {

  import opened Options
  import opened Json
  import opened Lists

  predicate HasStatus(a: Object, status: string) { PropIs(a, "status", Str(status)) }
  predicate HasId(a: Object, id: Value) { PropIs(a, "id", id) }

  /** `filteredArticles`: the whole list for `'all'`, otherwise the articles
      whose status is the filter, in order. */
  function FilteredArticles(articles: seq<Object>, filterStatus: string): (r: seq<Object>)
    ensures filterStatus == "all" ==> r == articles
    ensures filterStatus != "all" ==> r == Filter(articles, a => HasStatus(a, filterStatus))
    ensures filterStatus != "all" ==> forall a :: a in r <==> a in articles && HasStatus(a, filterStatus)
  {
    if filterStatus == "all" then articles else Filter(articles, a => HasStatus(a, filterStatus))
  }

  /** `handleDelete`: drop the articles with that id, keep the rest in order. */
  function DeleteArticle(articles: seq<Object>, id: Value): (r: seq<Object>)
    ensures forall a :: a in r <==> a in articles && !HasId(a, id)
    ensures (forall a :: a in articles ==> !HasId(a, id)) ==> r == articles
  {
    FilterAll(articles, a => !HasId(a, id));
    Filter(articles, a => !HasId(a, id))
  }

  /** Deleting keeps the survivors in their order: it distributes over
      concatenation. */
  lemma {:induction false} DeleteKeepsOrder(xs: seq<Object>, ys: seq<Object>, id: Value)
    ensures DeleteArticle(xs + ys, id) == DeleteArticle(xs, id) + DeleteArticle(ys, id)
  {
    FilterAppend(xs, ys, a => !HasId(a, id));
  }

  /** The article `handlePublish` makes of a match. */
  function Published(a: Object, now: string): Object {
    a["status" := Str("published")]["publishedAt" := Str(now)]
  }

  /** `handlePublish`, with `now` for `new Date().toLocaleString()`. */
  function PublishArticle(articles: seq<Object>, id: Value, now: string): (r: seq<Object>)
    ensures |r| == |articles|
    ensures forall i :: 0 <= i < |r| ==> if HasId(articles[i], id) then r[i] == Published(articles[i], now) else r[i] == articles[i]
  {
    seq(|articles|, i requires 0 <= i < |articles| => if HasId(articles[i], id) then Published(articles[i], now) else articles[i])
  }

  /** A published article keeps its id and every field other than status and
      publication time, and publishing again changes nothing more. */
  lemma {:induction false} PublishKeepsIdentity(articles: seq<Object>, id: Value, now: string)
    ensures var r := PublishArticle(articles, id, now);
      && (forall i :: 0 <= i < |r| ==> (HasId(r[i], id) <==> HasId(articles[i], id)))
      && (forall i :: 0 <= i < |r| && HasId(articles[i], id) ==>
            HasStatus(r[i], "published") &&
            forall k :: k != "status" && k != "publishedAt" ==> (k in r[i] <==> k in articles[i]) && (k in r[i] ==> r[i][k] == articles[i][k]))
      && PublishArticle(r, id, now) == r
  {
    var r := PublishArticle(articles, id, now);
    forall i | 0 <= i < |r|
      ensures PublishArticle(r, id, now)[i] == r[i]
    {
      if HasId(articles[i], id) {
        assert Published(r[i], now) == r[i];
      }
    }
  }

  /** `handleBatchDelete`: the new list and selection. An empty selection only
      warns; otherwise nothing happens until the confirmation is accepted. */
  function BatchDelete(articles: seq<Object>, selected: seq<Value>, confirmed: bool): (r: (seq<Object>, seq<Value>))
    ensures selected == [] || !confirmed ==> r == (articles, selected)
    ensures selected != [] && confirmed ==>
      r.1 == [] && forall a :: a in r.0 <==> a in articles && forall id :: id in selected ==> !HasId(a, id)
  {
    if |selected| == 0 || !confirmed then (articles, selected)
    else
      var keep := (a: Object) => !("id" in a && a["id"] in selected);
      (Filter(articles, keep), [])
  }

  /** `modalType` */
  datatype ModalType = Create | Edit | Preview

  /** The article `handleModalOk` creates: `{ id, ...values, status: 'draft',
      createdAt, views: 0, likes: 0, comments: 0, tags: values.tags || [] }`. */
  function NewArticle(values: Object, newId: Value, now: string): (a: Object)
    ensures HasStatus(a, "draft") && PropIs(a, "views", Num(0.0)) && PropIs(a, "likes", Num(0.0)) && PropIs(a, "comments", Num(0.0))
    ensures PropIs(a, "createdAt", Str(now))
    ensures "tags" in values && Truthy(values["tags"]) ==> PropIs(a, "tags", values["tags"])
    ensures !("tags" in values && Truthy(values["tags"])) ==> PropIs(a, "tags", Arr([]))
    ensures "id" !in values ==> PropIs(a, "id", newId)
    ensures forall k :: k in values && k !in {"status", "createdAt", "views", "likes", "comments", "tags"} ==> PropIs(a, k, values[k])
  {
    var tags := if "tags" in values && Truthy(values["tags"]) then values["tags"] else Arr([]);
    map["id" := newId] + values
      + map["status" := Str("draft"), "createdAt" := Str(now), "views" := Num(0.0), "likes" := Num(0.0),
            "comments" := Num(0.0), "tags" := tags]
  }

  /** `article.id === currentArticle.id`: both ids are the same primitive, or
      both are `undefined` (`None`). */
  predicate SameId(a: Object, currentId: Option<Value>) { Get(a, "id") == currentId }

  /** `{ ...article, ...values }` on the article being edited. */
  function EditArticles(articles: seq<Object>, currentId: Option<Value>, values: Object): (r: seq<Object>)
    ensures |r| == |articles|
    ensures forall i :: 0 <= i < |r| ==> if SameId(articles[i], currentId) then r[i] == articles[i] + values else r[i] == articles[i]
  {
    seq(|articles|, i requires 0 <= i < |articles| => if SameId(articles[i], currentId) then articles[i] + values else articles[i])
  }

  /** `handleModalOk`: `values` is `None` when validation fails, `current` the
      article being edited. Create prepends; edit merges into the matches
      only; preview, a failed validation or an edit without an article (the
      `currentArticle.id` access throws and is caught) leave the list alone. */
  function ModalOk(articles: seq<Object>, modal: ModalType, current: Option<Object>, values: Option<Object>,
                   newId: Value, now: string): (r: seq<Object>)
    ensures values.None? || modal == Preview ==> r == articles
    ensures values.Some? && modal == Create ==> r == [NewArticle(values.value, newId, now)] + articles
    ensures values.Some? && modal == Edit && current.None? ==> r == articles
    ensures values.Some? && modal == Edit && current.Some? ==>
      |r| == |articles| &&
      forall i :: 0 <= i < |r| ==>
        if Get(articles[i], "id") == Get(current.value, "id") then
          (forall k :: k in values.value ==> PropIs(r[i], k, values.value[k]))
          && (forall k :: k !in values.value ==> (k in r[i] <==> k in articles[i]) && (k in r[i] ==> r[i][k] == articles[i][k]))
        else r[i] == articles[i]
  {
    if values.None? then articles
    else match modal
      case Create => [NewArticle(values.value, newId, now)] + articles
      case Edit =>
        if current.Some? then EditArticles(articles, Get(current.value, "id"), values.value)
        else articles
      case Preview => articles
  }

  /** `stats` */
  datatype Stats = Stats(total: nat, published: nat, scheduled: nat, draft: nat)

  function CountStatus(articles: seq<Object>, status: string): (n: nat)
    ensures n == |Filter(articles, a => HasStatus(a, status))|
  {
    |Filter(articles, a => HasStatus(a, status))|
  }

  function ArticleStats(articles: seq<Object>): (s: Stats)
    ensures s.total == |articles|
    ensures s.published + s.scheduled + s.draft <= s.total
  {
    StatusCountsBound(articles);
    Stats(|articles|, CountStatus(articles, "published"), CountStatus(articles, "scheduled"), CountStatus(articles, "draft"))
  }

  /** An article has at most one status, so the three counts add up to at
      most the list length. */
  lemma {:induction false} StatusCountsBound(articles: seq<Object>)
    ensures CountStatus(articles, "published") + CountStatus(articles, "scheduled") + CountStatus(articles, "draft") <= |articles|
    decreases |articles|
  {
    if |articles| > 0 {
      var init := articles[..|articles| - 1];
      StatusCountsBound(init);
      var last := articles[|articles| - 1];
      assert Filter(articles, a => HasStatus(a, "published")) == Filter(init, a => HasStatus(a, "published")) + (if HasStatus(last, "published") then [last] else []);
      assert Filter(articles, a => HasStatus(a, "scheduled")) == Filter(init, a => HasStatus(a, "scheduled")) + (if HasStatus(last, "scheduled") then [last] else []);
      assert Filter(articles, a => HasStatus(a, "draft")) == Filter(init, a => HasStatus(a, "draft")) + (if HasStatus(last, "draft") then [last] else []);
      assert "published" != "scheduled" && "published" != "draft" && "scheduled" != "draft";
    }
  }
}
