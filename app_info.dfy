/**
 * The two app-listing endpoints (`AppInfoAPIView.get`, v1, and
 * `AppInfoV2APIView.get`, v2) over the registry of platform apps.
 *
 * The registry is the sequence of App rows in store order. Both versions
 * share the same query: keep the apps whose code is one of the `;`-separated
 * pieces of `target_app_code` (all apps when that parameter is absent or
 * empty), then order them newest `created_date` first.
 */
module AppInfo {
  import opened Wrappers
  import opened Text

  /** A row of the App table, as far as the listings read it. */
  datatype App = App(
    code: string,
    name: string,
    introduction: string,
    creater: string,          // the column holding the creator, spelled as in the table
    developerStr: string,
    createdDate: int)

  /** A JSON object whose values are all strings. */
  type Item = map<string, string>

  /** The v1 envelope: `result`, `code`, `message`, `data`. */
  datatype V1Response = V1Response(result: bool, code: string, message: string, data: seq<Item>)

  /** The v2 envelope: `bk_error_msg`, `bk_error_code`, `data`. */
  datatype V2Response = V2Response(bkErrorMsg: string, bkErrorCode: int, data: seq<Item>)

  /** The codes of the apps in the registry are pairwise distinct. */
  ghost predicate UniqueCodes(apps: seq<App>)
  {
    forall i, j :: 0 <= i < j < |apps| ==> apps[i].code != apps[j].code
  }

  /** `filter(code__in=codes)`: the apps whose code is listed, in store order, each as often as it occurs. */
  function Filter(apps: seq<App>, codes: seq<string>): (r: seq<App>)
    ensures |r| <= |apps|
    ensures forall k :: 0 <= k < |r| ==> r[k].code in codes
  {
    if |apps| == 0 then []
    else if apps[0].code in codes then [apps[0]] + Filter(apps[1..], codes)
    else Filter(apps[1..], codes)
  }

  /** The filter keeps every listed app as often as it is stored, and nothing else. */
  lemma {:induction false} FilterCounts(apps: seq<App>, codes: seq<string>)
    ensures forall a :: multiset(Filter(apps, codes))[a] == if a.code in codes then multiset(apps)[a] else 0
  {
    if |apps| > 0 {
      FilterCounts(apps[1..], codes);
      assert apps == [apps[0]] + apps[1..];
    }
  }

  /** Whether an app with this code passes the `target_app_code` filter. */
  predicate Wanted(target: Option<string>, code: string)
  {
    match target
    case None => true
    case Some(t) => t == "" || code in Split(t, ';')
  }

  /** The `code__in` filter, applied only when `target_app_code` is a non-empty string. */
  function Selected(apps: seq<App>, target: Option<string>): (r: seq<App>)
    ensures |r| <= |apps|
    ensures forall k :: 0 <= k < |r| ==> Wanted(target, r[k].code)
  {
    match target
    case None => apps
    case Some(t) =>
      if t == "" then apps
      else Filter(apps, Split(t, ';'))
  }

  /** Filtering by codes that no stored app has leaves nothing. */
  lemma {:induction false} FilterNothing(apps: seq<App>, codes: seq<string>)
    requires forall k :: 0 <= k < |apps| ==> apps[k].code !in codes
    ensures Filter(apps, codes) == []
  {
    if |apps| > 0 {
      FilterNothing(apps[1..], codes);
    }
  }

  /** The selection keeps every wanted app as often as it is stored, and nothing else. */
  lemma SelectedCounts(apps: seq<App>, target: Option<string>)
    ensures forall a :: multiset(Selected(apps, target))[a] == if Wanted(target, a.code) then multiset(apps)[a] else 0
  {
    if target.Some? && target.value != "" {
      FilterCounts(apps, Split(target.value, ';'));
    }
  }

  /** Newest first: `created_date` never increases along the sequence. */
  ghost predicate NewestFirst(s: seq<App>)
  {
    forall i, j :: 0 <= i < j < |s| ==> s[i].createdDate >= s[j].createdDate
  }

  /** Places `a` before the first app that is not newer than it. */
  function InsertByNewest(a: App, s: seq<App>): (r: seq<App>)
    requires NewestFirst(s)
    ensures NewestFirst(r)
    ensures multiset(r) == multiset(s) + multiset{a}
  {
    if |s| == 0 || a.createdDate >= s[0].createdDate then [a] + s
    else
      var t := InsertByNewest(a, s[1..]);
      HeadStaysNewest(s, a, t);
      [s[0]] + t
  }

  /** Inserting an older app into the tail of a newest-first list keeps the head in front. */
  lemma HeadStaysNewest(s: seq<App>, a: App, t: seq<App>)
    requires NewestFirst(s) && |s| > 0 && a.createdDate < s[0].createdDate
    requires NewestFirst(t) && multiset(t) == multiset(s[1..]) + multiset{a}
    ensures NewestFirst([s[0]] + t)
    ensures multiset([s[0]] + t) == multiset(s) + multiset{a}
  {
    forall k | 0 <= k < |t|
      ensures t[k].createdDate <= s[0].createdDate
    {
      assert t[k] in multiset(t);
      if t[k] != a {
        assert t[k] in multiset(s[1..]);
        var j :| 0 <= j < |s[1..]| && s[1..][j] == t[k];
        assert s[j + 1] == t[k];
      }
    }
    assert s == [s[0]] + s[1..];
  }

  /**
   * `order_by('-created_date')`: the same apps, newest first. Apps created at
   * the same moment keep their store order.
   */
  function ByNewest(s: seq<App>): (r: seq<App>)
    ensures NewestFirst(r)
    ensures multiset(r) == multiset(s)
  {
    if |s| == 0 then []
    else
      assert s == [s[0]] + s[1..];
      InsertByNewest(s[0], ByNewest(s[1..]))
  }

  /**
   * The query both listings run: exactly the wanted apps, each as often as
   * it is stored, newest first.
   */
  function Query(apps: seq<App>, target: Option<string>): (q: seq<App>)
    ensures NewestFirst(q)
    ensures forall a :: multiset(q)[a] == if Wanted(target, a.code) then multiset(apps)[a] else 0
  {
    SelectedCounts(apps, target);
    ByNewest(Selected(apps, target))
  }

  /** A v1 item: only `app_code` and `app_name`. */
  function V1Item(a: App): (item: Item)
    ensures item.Keys == {"app_code", "app_name"}
    ensures item["app_code"] == a.code && item["app_name"] == a.name
  {
    map["app_code" := a.code, "app_name" := a.name]
  }

  /** `AppInfoAPIView.get`: the success envelope around one v1 item per queried app. */
  function GetV1(apps: seq<App>, target: Option<string>): (r: V1Response)
    ensures r.result && r.code == "00" && r.message == "SUCCESS"
    ensures var q := Query(apps, target);
      |r.data| == |q| && forall i :: 0 <= i < |q| ==> r.data[i] == V1Item(q[i])
  {
    var q := Query(apps, target);
    V1Response(true, "00", "SUCCESS", seq(|q|, i requires 0 <= i < |q| => V1Item(q[i])))
  }

  /** Every item of the v1 listing is the item of a stored app that was asked for. */
  lemma V1ItemsAreWanted(apps: seq<App>, target: Option<string>, i: nat)
    requires i < |GetV1(apps, target).data|
    ensures exists b :: b in apps && Wanted(target, b.code) && GetV1(apps, target).data[i] == V1Item(b)
  {
    var q := Query(apps, target);
    var b := q[i];
    assert multiset(q)[b] > 0;
    assert b in apps;
  }

  /** Every stored app that was asked for has its item in the v1 listing. */
  lemma WantedAppsAreListed(apps: seq<App>, target: Option<string>, b: App)
    requires b in apps && Wanted(target, b.code)
    ensures V1Item(b) in GetV1(apps, target).data
  {
    var q := Query(apps, target);
    assert multiset(apps)[b] > 0;
    assert b in multiset(q);
    var i :| 0 <= i < |q| && q[i] == b;
    assert GetV1(apps, target).data[i] == V1Item(b);
  }

  /** The v1 listing has one item per wanted app, counting repeats in the store. */
  lemma V1ItemCount(apps: seq<App>, target: Option<string>)
    ensures |GetV1(apps, target).data| == |Selected(apps, target)|
  {
    var q := Query(apps, target);
    SelectedCounts(apps, target);
    assert multiset(q) == multiset(Selected(apps, target));
    assert |q| == |multiset(q)|;
  }

  /** The extra fields a v2 item may carry. */
  const KnownExtraFields: set<string> := {"introduction", "creator", "developer"}

  /** The extra-field set: the requested `fields` pieces that are known, none when `fields` is absent or empty. */
  function ExtraFields(fields: Option<string>): (r: set<string>)
    ensures r <= KnownExtraFields
    ensures fields.None? || fields == Some("") ==> r == {}
    ensures forall f :: f in r <==> fields.Some? && f in KnownExtraFields && f in Split(fields.value, ';')
  {
    match fields
    case None => {}
    case Some(f) =>
      if f == "" then {}
      else set p | p in KnownExtraFields && p in Split(f, ';')
  }

  /** Asking for a list of field names joined with `;` selects exactly the known names among them. */
  lemma {:induction false} ExtraFieldsOfJoined(names: seq<string>)
    requires |names| >= 1
    requires forall k :: 0 <= k < |names| ==> ';' !in names[k]
    ensures ExtraFields(Some(Join(names, ';'))) == set n | n in names && n in KnownExtraFields
  {
    SplitJoin(names, ';');
  }

  /** A v2 item describes `a` with exactly the base keys plus the extra fields, each from its column. */
  ghost predicate V2ItemOf(item: Item, a: App, extras: set<string>)
  {
    && item.Keys == {"bk_app_code", "bk_app_name"} + extras
    && item["bk_app_code"] == a.code
    && item["bk_app_name"] == a.name
    && ("introduction" in extras ==> item["introduction"] == a.introduction)
    && ("creator" in extras ==> item["creator"] == a.creater)
    && ("developer" in extras ==> item["developer"] == a.developerStr)
  }

  /** One v2 item: the base keys, then each requested extra field added in turn. */
  method NewV2Item(app: App, extras: set<string>) returns (item: Item)
    requires extras <= KnownExtraFields
    ensures V2ItemOf(item, app, extras)
  {
    item := map["bk_app_code" := app.code, "bk_app_name" := app.name];
    if "introduction" in extras {
      item := item["introduction" := app.introduction];
    }
    if "creator" in extras {
      item := item["creator" := app.creater];
    }
    if "developer" in extras {
      item := item["developer" := app.developerStr];
    }
  }

  /**
   * `AppInfoV2APIView.get`: builds the item list one app at a time, adding
   * each requested extra field, inside the v2 success envelope.
   */
  method GetV2(apps: seq<App>, target: Option<string>, fields: Option<string>) returns (r: V2Response)
    ensures r.bkErrorMsg == "" && r.bkErrorCode == 0
    ensures var q := Query(apps, target);
      |r.data| == |q| && forall i :: 0 <= i < |q| ==> V2ItemOf(r.data[i], q[i], ExtraFields(fields))
  {
    var query := Query(apps, target);
    var extras := ExtraFields(fields);
    var appList: seq<Item> := [];
    var i := 0;
    while i < |query|
      invariant 0 <= i <= |query|
      invariant |appList| == i
      invariant forall k :: 0 <= k < i ==> V2ItemOf(appList[k], query[k], extras)
    {
      var item := NewV2Item(query[i], extras);
      appList := appList + [item];
      i := i + 1;
    }
    r := V2Response("", 0, appList);
  }

  /** The exceptions `App.objects.get` raises. */
  datatype LookupError = DoesNotExist | MultipleObjectsReturned

  /** `App.objects.get(code=c)`: the single app with code `c`, or the exception Django raises. */
  function GetApp(apps: seq<App>, c: string): (r: Result<App, LookupError>)
    ensures r.Success? ==> r.value in apps && r.value.code == c
    ensures r == Failure(DoesNotExist) <==> forall a :: a in apps ==> a.code != c
  {
    FilterCounts(apps, [c]);
    var matches := Filter(apps, [c]);
    assert |matches| == 0 <==> forall a :: a in apps ==> a.code != c by {
      if |matches| > 0 {
        assert multiset(matches)[matches[0]] > 0;
      }
      if a :| a in apps && a.code == c {
        assert multiset(matches)[a] > 0;
      }
    }
    assert |matches| > 0 ==> multiset(matches)[matches[0]] > 0;
    if |matches| == 1 then Success(matches[0])
    else if |matches| == 0 then Failure(DoesNotExist)
    else Failure(MultipleObjectsReturned)
  }

  /** Filtering a registry with distinct codes by the code of one of its apps leaves just that app. */
  lemma {:induction false} FilterByUniqueCode(apps: seq<App>, a: App)
    requires UniqueCodes(apps)
    requires a in apps
    ensures Filter(apps, [a.code]) == [a]
  {
    assert apps == [apps[0]] + apps[1..];
    if apps[0] == a {
      FilterNothing(apps[1..], [a.code]);
    } else {
      assert a in apps[1..];
      FilterByUniqueCode(apps[1..], a);
    }
  }

  /** With distinct codes, looking up a stored app's code finds that app. */
  lemma GetAppFindsStoredApp(apps: seq<App>, a: App)
    requires UniqueCodes(apps)
    requires a in apps
    ensures GetApp(apps, a.code) == Success(a)
  {
    FilterByUniqueCode(apps, a);
  }

  /** The apps of the documented example, in store order: `test2`, then `test1`, then a third, newest app. */
  const Test1 := App("test1", "测试1", "", "", "", 2)
  const Test2 := App("test2", "测试2", "", "", "", 1)
  const Test3 := App("test3", "测试3", "", "", "", 3)

  /** The example's `target_app_code` splits into the two codes asked for. */
  lemma ExampleSplit()
    ensures Split("test1;test2", ';') == ["test1", "test2"]
  {
    assert "test1;test2" == "test1" + [';'] + "test2";
    SplitAround("test1", "test2", ';');
    SplitWithoutSeparator("test1", ';');
    SplitWithoutSeparator("test2", ';');
  }

  /** Filtering the example registry by those codes keeps `test2` and `test1`, in store order. */
  lemma ExampleFilter()
    ensures Filter([Test2, Test1, Test3], ["test1", "test2"]) == [Test2, Test1]
  {
    var pieces := ["test1", "test2"];
    assert Test3.code !in pieces by {
      assert "test3"[4] != "test1"[4] && "test3"[4] != "test2"[4];
    }
    assert Filter([Test3], pieces) == [] by {
      assert [Test3][1..] == [];
    }
    assert Filter([Test1, Test3], pieces) == [Test1] by {
      assert [Test1, Test3][1..] == [Test3];
    }
    assert [Test2, Test1, Test3][1..] == [Test1, Test3];
  }

  /** Ordering those two puts `test1`, the newer one, first. */
  lemma ExampleOrder()
    ensures ByNewest([Test2, Test1]) == [Test1, Test2]
  {
    assert [Test1][1..] == [];
    assert ByNewest([Test1]) == [Test1];
    assert [Test2, Test1][1..] == [Test1];
  }

  /** The example's selection is `test2` then `test1`. */
  lemma ExampleSelection()
    ensures Selected([Test2, Test1, Test3], Some("test1;test2")) == [Test2, Test1]
  {
    ExampleSplit();
    ExampleFilter();
  }

  /** The example's query is `test1` then `test2`. */
  lemma ExampleQuery()
    ensures Query([Test2, Test1, Test3], Some("test1;test2")) == [Test1, Test2]
  {
    ExampleSelection();
    ExampleOrder();
  }

  /**
   * The documented example: asking for `test1;test2` yields the two apps
   * asked for, the newer one first.
   */
  lemma ListingExample(apps: seq<App>, target: Option<string>)
    requires apps == [Test2, Test1, Test3] && target == Some("test1;test2")
    ensures GetV1(apps, target).data
      == [map["app_code" := "test1", "app_name" := "测试1"],
          map["app_code" := "test2", "app_name" := "测试2"]]
  {
    ExampleQuery();
    var data := GetV1(apps, target).data;
    assert |data| == 2 && data[0] == V1Item(Test1) && data[1] == V1Item(Test2);
  }
}
