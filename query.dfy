/**
 * URL query items and the two helpers that read an `error_code` out of a
 * navigated URL (`errorFound(url:)` and `getError(url:)`).
 *
 * A URL is reduced to what these helpers look at: its text and its query
 * items, already split by Foundation (`None` when the URL has no query).
 */
module QueryItems {
  import opened Wrappers

  /** One `name[=value]` pair of a URL query; `value` is `None` for a bare `name`. */
  datatype QueryItem = QueryItem(name: string, value: Option<string>)

  datatype Url = Url(text: string, query: Option<seq<QueryItem>>)

  const ErrorCodeName: string := "error_code"

  /** The query items of an optional URL: `url?.queryItems()`. */
  function QueryOf(url: Option<Url>): Option<seq<QueryItem>>
  {
    match url
    case None => None
    case Some(u) => u.query
  }

  /** Some item of `items` is called `name`. */
  ghost predicate HasItemNamed(items: seq<QueryItem>, name: string) {
    exists i :: 0 <= i < |items| && items[i].name == name
  }

  /** No item before position `i` is called `name`. */
  ghost predicate NoneNamedBefore(items: seq<QueryItem>, i: int, name: string)
    requires 0 <= i <= |items|
  {
    forall j :: 0 <= j < i ==> items[j].name != name
  }

  /** `items.filter({ $0.name == name })`. */
  function Named(items: seq<QueryItem>, name: string): seq<QueryItem>
  {
    if items == [] then []
    else if items[0].name == name then [items[0]] + Named(items[1..], name)
    else Named(items[1..], name)
  }

  /** The filter keeps every item called `name`, as many times as it occurs, and nothing else. */
  lemma {:induction false} NamedCounts(items: seq<QueryItem>, name: string)
    ensures forall q :: multiset(Named(items, name))[q] == (if q.name == name then multiset(items)[q] else 0)
    ensures forall q :: q in Named(items, name) <==> q in items && q.name == name
    decreases |items|
  {
    if items != [] {
      assert items == [items[0]] + items[1..];
      NamedCounts(items[1..], name);
    }
  }

  /**
   * The head of the filtered items is what `first(where:)` finds, and the
   * filter is empty exactly when `first(where:)` finds nothing: `filter(...).first`
   * and `first(where:)` agree.
   */
  lemma {:induction false} NamedHeadIsFirst(items: seq<QueryItem>, name: string)
    ensures Named(items, name) != [] ==> FirstNamed(items, name) == Some(Named(items, name)[0])
    ensures Named(items, name) == [] ==> FirstNamed(items, name).None?
    decreases |items|
  {
    if items != [] {
      NamedHeadIsFirst(items[1..], name);
    }
  }

  /** One step of the filter: the head is kept exactly when it has the name. */
  lemma NamedCons(x: QueryItem, rest: seq<QueryItem>, name: string)
    ensures Named([x] + rest, name) == (if x.name == name then [x] + Named(rest, name) else Named(rest, name))
  {
  }

  /** Filtering keeps the order of the items: it commutes with concatenation. */
  lemma {:induction false} NamedDistributes(xs: seq<QueryItem>, ys: seq<QueryItem>, name: string)
    ensures Named(xs + ys, name) == Named(xs, name) + Named(ys, name)
    decreases |xs|
  {
    if xs == [] {
      assert xs + ys == ys;
    } else {
      var x, tail := xs[0], xs[1..];
      assert xs == [x] + tail;
      assert xs + ys == [x] + (tail + ys);
      NamedCons(x, tail, name);
      NamedCons(x, tail + ys, name);
      NamedDistributes(tail, ys, name);
    }
  }

  /** `items.first(where: { $0.name == name })`. */
  function FirstNamed(items: seq<QueryItem>, name: string): (r: Option<QueryItem>)
    ensures r.Some? <==> HasItemNamed(items, name)
    ensures r.Some? ==> exists i :: 0 <= i < |items| && items[i] == r.value
                                 && r.value.name == name && NoneNamedBefore(items, i, name)
  {
    if items == [] then None
    else if items[0].name == name then Some(items[0])
    else FirstNamed(items[1..], name)
  }

  /**
   * `errorFound(url:)`: the URL is present, has query items, and the filtered
   * list of `error_code` items is not empty — whatever value those items have.
   */
  function ErrorFound(url: Option<Url>): (found: bool)
    ensures found <==> QueryOf(url).Some? && HasItemNamed(QueryOf(url).value, ErrorCodeName)
  {
    match QueryOf(url)
    case None => false
    case Some(items) =>
      NamedCounts(items, ErrorCodeName);
      var r := Named(items, ErrorCodeName);
      assert HasItemNamed(items, ErrorCodeName) ==> r != [] by {
        if HasItemNamed(items, ErrorCodeName) {
          var i :| 0 <= i < |items| && items[i].name == ErrorCodeName;
          assert items[i] in r;
        }
      }
      assert r != [] ==> HasItemNamed(items, ErrorCodeName) by {
        if r != [] {
          assert r[0] in items;
        }
      }
      r != []
  }

  /** `getError(url:)`: the value of the first `error_code` item, if there is one and it has a value. */
  function GetError(url: Option<Url>): (code: Option<string>)
    ensures code.Some? ==> ErrorFound(url)
    ensures code.Some? ==> exists i :: 0 <= i < |QueryOf(url).value| && NoneNamedBefore(QueryOf(url).value, i, ErrorCodeName)
                                     && QueryOf(url).value[i] == QueryItem(ErrorCodeName, code)
  {
    match QueryOf(url)
    case None => None
    case Some(items) =>
      match FirstNamed(items, ErrorCodeName)
      case None => None
      case Some(item) => item.value
  }

  /**
   * The first `error_code` item decides `getError`: its value is returned, and
   * no later `error_code` item is ever looked at.
   */
  lemma GetErrorIsFirstValue(url: Option<Url>, i: nat)
    requires QueryOf(url).Some?
    requires i < |QueryOf(url).value|
    requires QueryOf(url).value[i].name == ErrorCodeName
    requires NoneNamedBefore(QueryOf(url).value, i, ErrorCodeName)
    ensures ErrorFound(url)
    ensures GetError(url) == QueryOf(url).value[i].value
  {
  }

  /**
   * `errorFound` and `getError` disagree exactly when the first `error_code`
   * item carries no value: then an error is reported found with no code.
   */
  lemma FoundWithoutCode(url: Option<Url>)
    ensures ErrorFound(url) && GetError(url).None? <==>
            QueryOf(url).Some? && FirstNamed(QueryOf(url).value, ErrorCodeName).Some?
            && FirstNamed(QueryOf(url).value, ErrorCodeName).value.value.None?
  {
  }

  /** A navigated URL carrying `error_code=invalid_credentials` reports that code. */
  lemma InvalidCredentialsExample(text: string)
    ensures var url := Some(Url(text, Some([QueryItem(ErrorCodeName, Some("invalid_credentials"))])));
            ErrorFound(url) && GetError(url) == Some("invalid_credentials")
  {
    var url := Some(Url(text, Some([QueryItem(ErrorCodeName, Some("invalid_credentials"))])));
    GetErrorIsFirstValue(url, 0);
  }

  /** A bare `error_code` (no `=value`) is found, but yields no code. */
  lemma BareErrorCodeExample(text: string)
    ensures var url := Some(Url(text, Some([QueryItem(ErrorCodeName, None)])));
            ErrorFound(url) && GetError(url).None?
  {
    var url := Some(Url(text, Some([QueryItem(ErrorCodeName, None)])));
    GetErrorIsFirstValue(url, 0);
  }
}
