/**
  Finding the video URL in a "succeeded" status body. Five response shapes
  are tried in a fixed order and the first one that yields a truthy value
  wins; a shape that yields nothing, None or an empty value hands over to
  the next. One shape can raise: a truthy `data` that is not a list, or a
  `data` item that is not an object before the video item is found.
*/
module Extract {
  import opened PyJson

  /** What one shape yields: a value (possibly falsy), nothing, or an exception. */
  datatype Probe = Hit(value: Json) | Miss | Crash

  /** The outcome of the whole search. */
  datatype Extraction = Found(url: Json) | NotFound | Raised

  /** Shape 1: `content.video_url` when `content` is an object. */
  function ContentProbe(body: Fields): Probe
  {
    var c := Lookup(body, "content", Null);
    if HasKey(body, "content") && c.Obj? then Hit(Lookup(c.fields, "video_url", Null)) else Miss
  }

  /** The `url` of the first `data` item whose `type` is "video_url"; a non-object item reached first raises. */
  function ScanData(items: seq<Json>): Probe
  {
    if items == [] then Miss
    else if !items[0].Obj? then Crash
    else if Lookup(items[0].fields, "type", Null) == Str("video_url") then Hit(Lookup(items[0].fields, "url", Null))
    else ScanData(items[1..])
  }

  /** Shape 2: the `data` list, when present and truthy; iterating a truthy non-list raises. */
  function DataProbe(body: Fields): Probe
  {
    var d := Lookup(body, "data", Null);
    if !HasKey(body, "data") || !Truthy(d) then Miss
    else if d.Arr? then ScanData(d.items)
    else Crash
  }

  /** Shape 3: a top-level `video_url`. */
  function TopLevelProbe(body: Fields): Probe
  {
    if HasKey(body, "video_url") then Hit(Lookup(body, "video_url", Null)) else Miss
  }

  /** An object that has a `video_url` or a `url` key. */
  predicate HasUrlKey(item: Json)
  {
    item.Obj? && (HasKey(item.fields, "video_url") || HasKey(item.fields, "url"))
  }

  /** `d.get("video_url") or d.get("url")`. */
  function UrlOf(d: Fields): Json
  {
    Or(Lookup(d, "video_url", Null), Lookup(d, "url", Null))
  }

  /** The first item having either key; other items, objects or not, are skipped. */
  function ScanUrlItems(items: seq<Json>): (p: Probe)
    ensures !p.Crash?
    ensures p.Hit? ==> exists i :: 0 <= i < |items| && HasUrlKey(items[i]) && p.value == UrlOf(items[i].fields)
  {
    if items == [] then Miss
    else if HasUrlKey(items[0]) then Hit(UrlOf(items[0].fields))
    else ScanUrlItems(items[1..])
  }

  /**
    The scan takes the first item having either key, even when its value is
    empty, and misses exactly when no item has either key.
  */
  lemma {:induction false} ScanUrlItemsFirst(items: seq<Json>)
    ensures var p := ScanUrlItems(items);
      (p.Hit? ==>
         exists i :: 0 <= i < |items| && HasUrlKey(items[i]) && p.value == UrlOf(items[i].fields)
           && (forall j :: 0 <= j < i ==> !HasUrlKey(items[j])))
      && (p.Miss? <==> forall i :: 0 <= i < |items| ==> !HasUrlKey(items[i]))
  {
    if items != [] && !HasUrlKey(items[0]) {
      var p := ScanUrlItems(items[1..]);
      ScanUrlItemsFirst(items[1..]);
      assert forall i :: 1 <= i < |items| ==> items[i] == items[1..][i - 1];
      if p.Hit? {
        var i :| 0 <= i < |items[1..]| && HasUrlKey(items[1..][i]) && p.value == UrlOf(items[1..][i].fields)
          && (forall j :: 0 <= j < i ==> !HasUrlKey(items[1..][j]));
        assert HasUrlKey(items[i + 1]) && p.value == UrlOf(items[i + 1].fields);
        assert forall j :: 0 <= j < i + 1 ==> !HasUrlKey(items[j]);
      }
    }
  }

  /** Shape 4: `result` as an object, or as a non-empty list. */
  function ResultProbe(body: Fields): Probe
  {
    var r := Lookup(body, "result", Null);
    if !HasKey(body, "result") then Miss
    else if r.Obj? then Hit(UrlOf(r.fields))
    else if r.Arr? && r.items != [] then ScanUrlItems(r.items)
    else Miss
  }

  /** Shape 5: a non-empty `outputs` list. */
  function OutputsProbe(body: Fields): Probe
  {
    var o := Lookup(body, "outputs", Null);
    if HasKey(body, "outputs") && o.Arr? && o.items != [] then ScanUrlItems(o.items) else Miss
  }

  /** The five shapes in priority order. */
  function Probes(body: Fields): seq<Probe>
  {
    [ContentProbe(body), DataProbe(body), TopLevelProbe(body), ResultProbe(body), OutputsProbe(body)]
  }

  /** A probe that ends the search: a truthy value, or an exception. */
  predicate Decisive(p: Probe)
  {
    p.Crash? || (p.Hit? && Truthy(p.value))
  }

  function OutcomeOf(p: Probe): Extraction
  {
    if p.Crash? then Raised else if p.Hit? && Truthy(p.value) then Found(p.value) else NotFound
  }

  /** Later probes are only evaluated while no earlier one was decisive. */
  function FirstHit(ps: seq<Probe>): Extraction
  {
    if ps == [] then NotFound
    else if Decisive(ps[0]) then OutcomeOf(ps[0])
    else FirstHit(ps[1..])
  }

  /** The search over a status body. */
  function VideoUrlOf(body: Fields): (e: Extraction)
    ensures e.Found? ==> Truthy(e.url)
  {
    FirstHitFound(Probes(body));
    FirstHit(Probes(body))
  }

  lemma {:induction false} FirstHitFound(ps: seq<Probe>)
    ensures FirstHit(ps).Found? ==> Truthy(FirstHit(ps).url)
  {
    if ps != [] && !Decisive(ps[0]) {
      FirstHitFound(ps[1..]);
    }
  }

  /** The first decisive probe decides the search, whatever comes after it. */
  lemma {:induction false} FirstHitAt(ps: seq<Probe>, i: nat)
    requires i < |ps| && Decisive(ps[i])
    requires forall j :: 0 <= j < i ==> !Decisive(ps[j])
    ensures FirstHit(ps) == OutcomeOf(ps[i])
  {
    if i > 0 {
      FirstHitAt(ps[1..], i - 1);
    }
  }

  /** With no decisive probe the URL is not found. */
  lemma {:induction false} FirstHitNone(ps: seq<Probe>)
    requires forall j :: 0 <= j < |ps| ==> !Decisive(ps[j])
    ensures FirstHit(ps) == NotFound
  {
    if ps != [] {
      FirstHitNone(ps[1..]);
    }
  }

  /** Conversely, a search that stops names the first decisive probe. */
  lemma {:induction false} FirstHitWitness(ps: seq<Probe>)
    ensures FirstHit(ps) != NotFound ==>
      exists i :: 0 <= i < |ps| && Decisive(ps[i]) && FirstHit(ps) == OutcomeOf(ps[i])
        && (forall j :: 0 <= j < i ==> !Decisive(ps[j]))
  {
    if ps != [] && !Decisive(ps[0]) {
      FirstHitWitness(ps[1..]);
      if FirstHit(ps) != NotFound {
        var i :| 0 <= i < |ps[1..]| && Decisive(ps[1..][i]) && FirstHit(ps[1..]) == OutcomeOf(ps[1..][i])
          && (forall j :: 0 <= j < i ==> !Decisive(ps[1..][j]));
        assert Decisive(ps[i + 1]);
        assert forall j :: 0 <= j < i + 1 ==> !Decisive(ps[j]) by {
          forall j | 0 <= j < i + 1 ensures !Decisive(ps[j]) {
            if j > 0 { assert ps[j] == ps[1..][j - 1]; }
          }
        }
      }
    }
  }

  /** The data scan picks the first object typed "video_url". */
  lemma {:induction false} ScanDataFirst(items: seq<Json>, i: nat)
    requires i < |items| && items[i].Obj? && Lookup(items[i].fields, "type", Null) == Str("video_url")
    requires forall j :: 0 <= j < i ==> items[j].Obj? && Lookup(items[j].fields, "type", Null) != Str("video_url")
    ensures ScanData(items) == Hit(Lookup(items[i].fields, "url", Null))
  {
    if i > 0 {
      ScanDataFirst(items[1..], i - 1);
    }
  }

  /** The data scan raises on a non-object item that it reaches before any object typed "video_url". */
  lemma {:induction false} ScanDataRaises(items: seq<Json>, i: nat)
    requires i < |items| && !items[i].Obj?
    requires forall j :: 0 <= j < i ==> items[j].Obj? && Lookup(items[j].fields, "type", Null) != Str("video_url")
    ensures ScanData(items) == Crash
  {
    if i > 0 {
      ScanDataRaises(items[1..], i - 1);
    }
  }

  // ----- the documented shapes -----

  /** The body keys the search looks for are distinct words. */
  lemma ProbeKeysDistinct()
    ensures "content" != "data" && "content" != "video_url" && "content" != "result" && "content" != "outputs"
    ensures "data" != "video_url" && "data" != "result" && "data" != "outputs"
    ensures "video_url" != "result" && "video_url" != "outputs" && "result" != "outputs"
    ensures "video_url" != "url" && "type" != "url"
  {
    assert |"content"| == 7 && |"data"| == 4 && |"video_url"| == 9 && |"result"| == 6 && |"outputs"| == 7;
    assert |"url"| == 3 && |"type"| == 4;
    assert "content"[0] != "outputs"[0];
  }

  /** The service's own shape. */
  lemma ContentShape(url: string)
    requires url != ""
    ensures VideoUrlOf([("content", Obj([("video_url", Str(url))]))]) == Found(Str(url))
  {
    var body := [("content", Obj([("video_url", Str(url))]))];
    assert body[0].0 == "content";
    assert Lookup(body, "content", Null) == Obj([("video_url", Str(url))]);
    assert ContentProbe(body) == Hit(Str(url));
    FirstHitAt(Probes(body), 0);
  }

  lemma DataShape(url: string)
    requires url != ""
    ensures VideoUrlOf([("data", Arr([Obj([("type", Str("video_url")), ("url", Str(url))])]))]) == Found(Str(url))
  {
    ProbeKeysDistinct();
    var fields := [("type", Str("video_url")), ("url", Str(url))];
    var body := [("data", Arr([Obj(fields)]))];
    assert body[0].0 == "data";
    assert !HasKey(body, "content");
    assert ContentProbe(body) == Miss;
    assert Lookup(body, "data", Null) == Arr([Obj(fields)]);
    assert fields[1..] == [("url", Str(url))];
    assert Lookup(fields, "type", Null) == Str("video_url");
    assert Lookup(fields, "url", Null) == Str(url);
    assert ScanData([Obj(fields)]) == Hit(Str(url));
    assert DataProbe(body) == Hit(Str(url));
    FirstHitAt(Probes(body), 1);
  }

  lemma TopLevelShape(url: string)
    requires url != ""
    ensures VideoUrlOf([("video_url", Str(url))]) == Found(Str(url))
  {
    ProbeKeysDistinct();
    var body := [("video_url", Str(url))];
    assert body[0].0 == "video_url";
    assert !HasKey(body, "content") && !HasKey(body, "data");
    assert ContentProbe(body) == Miss && DataProbe(body) == Miss;
    assert TopLevelProbe(body) == Hit(Str(url));
    FirstHitAt(Probes(body), 2);
  }

  lemma ResultShape(url: string)
    requires url != ""
    ensures VideoUrlOf([("result", Obj([("url", Str(url))]))]) == Found(Str(url))
  {
    ProbeKeysDistinct();
    var body := [("result", Obj([("url", Str(url))]))];
    assert body[0].0 == "result";
    assert !HasKey(body, "content") && !HasKey(body, "data") && !HasKey(body, "video_url");
    assert ContentProbe(body) == Miss && DataProbe(body) == Miss && TopLevelProbe(body) == Miss;
    assert !HasKey([("url", Str(url))], "video_url");
    assert Lookup([("url", Str(url))], "url", Null) == Str(url);
    assert ResultProbe(body) == Hit(Str(url));
    FirstHitAt(Probes(body), 3);
  }

  lemma OutputsShape(url: string)
    requires url != ""
    ensures VideoUrlOf([("outputs", Arr([Obj([("video_url", Str(url))])]))]) == Found(Str(url))
  {
    ProbeKeysDistinct();
    var item := Obj([("video_url", Str(url))]);
    var body := [("outputs", Arr([item]))];
    assert body[0].0 == "outputs";
    assert !HasKey(body, "content") && !HasKey(body, "data") && !HasKey(body, "video_url") && !HasKey(body, "result");
    assert ContentProbe(body) == Miss && DataProbe(body) == Miss && TopLevelProbe(body) == Miss && ResultProbe(body) == Miss;
    assert [("video_url", Str(url))][0].0 == "video_url";
    assert HasUrlKey(item);
    assert UrlOf(item.fields) == Str(url);
    assert ScanUrlItems([item]) == Hit(Str(url));
    assert OutputsProbe(body) == Hit(Str(url));
    FirstHitAt(Probes(body), 4);
  }

  /** A finished task as the service reports it: the status, then `content.video_url`. */
  function SucceededBody(url: string): Fields
  {
    [("status", Str("succeeded")), ("content", Obj([("video_url", Str(url))]))]
  }

  /** Its status reads "succeeded", it carries no `error`, and the search finds the URL. */
  lemma SucceededBodyFields(url: string)
    requires url != ""
    ensures var body := SucceededBody(url);
      !HasKey(body, "error") && Lookup(body, "status", Str("")) == Str("succeeded")
      && VideoUrlOf(body) == Found(Str(url))
  {
    var body := SucceededBody(url);
    var rest := [("content", Obj([("video_url", Str(url))]))];
    assert body == [("status", Str("succeeded"))] + rest;
    assert "status" != "content" && "status" != "error" && "content" != "error" by {
      assert |"status"| == 6 && |"content"| == 7 && |"error"| == 5;
    }
    assert !HasKey(body, "error") by {
      forall i | 0 <= i < |body| ensures body[i].0 != "error" {
      }
    }
    LookupHead("status", Str("succeeded"), rest, Str(""));
    LookupSkip("status", Str("succeeded"), rest, "content", Null);
    assert rest[0].0 == "content";
    assert Lookup(rest, "content", Null) == Obj([("video_url", Str(url))]);
    assert HasKey(body, "content") by { assert body[1].0 == "content"; }
    assert ContentProbe(body) == Hit(Str(url));
    FirstHitAt(Probes(body), 0);
  }

  /** An empty `content.video_url` does not stop the search: the top-level field is used. */
  lemma EmptyValueFallsThrough(url: string)
    requires url != ""
    ensures VideoUrlOf([("content", Obj([("video_url", Str(""))])), ("video_url", Str(url))]) == Found(Str(url))
  {
    ProbeKeysDistinct();
    var body := [("content", Obj([("video_url", Str(""))])), ("video_url", Str(url))];
    assert body[0].0 == "content" && body[1].0 == "video_url";
    assert body[1..] == [("video_url", Str(url))];
    assert Lookup(body, "content", Null) == Obj([("video_url", Str(""))]);
    assert ContentProbe(body) == Hit(Str(""));
    assert !HasKey(body, "data");
    assert DataProbe(body) == Miss;
    assert Lookup(body, "video_url", Null) == Str(url);
    assert TopLevelProbe(body) == Hit(Str(url));
    FirstHitAt(Probes(body), 2);
  }

  /** A `data` list whose first item is not an object raises before later shapes are looked at. */
  lemma NonObjectDataItemRaises(url: string)
    ensures VideoUrlOf([("data", Arr([Str("x")])), ("video_url", Str(url))]) == Raised
  {
    ProbeKeysDistinct();
    var body := [("data", Arr([Str("x")])), ("video_url", Str(url))];
    assert body[0].0 == "data";
    assert !HasKey(body, "content");
    assert ContentProbe(body) == Miss;
    assert Lookup(body, "data", Null) == Arr([Str("x")]);
    assert DataProbe(body) == Crash;
    FirstHitAt(Probes(body), 1);
  }

  // ----- the search as written: a mutable result and early-exit loops -----

  /** The data scan as the loop does it. */
  method ScanDataLoop(items: seq<Json>) returns (p: Probe)
    ensures p == ScanData(items)
  {
    var i := 0;
    while i < |items|
      invariant 0 <= i <= |items|
      invariant ScanData(items) == ScanData(items[i..])
    {
      var item := items[i];
      assert items[i..][0] == item && items[i..][1..] == items[i + 1..];
      if !item.Obj? {
        return Crash;
      }
      if Lookup(item.fields, "type", Null) == Str("video_url") {
        return Hit(Lookup(item.fields, "url", Null));
      }
      i := i + 1;
    }
    assert items[i..] == [];
    return Miss;
  }

  /** The result and outputs scans as the loop does it. */
  method ScanUrlItemsLoop(items: seq<Json>) returns (p: Probe)
    ensures p == ScanUrlItems(items)
  {
    var i := 0;
    while i < |items|
      invariant 0 <= i <= |items|
      invariant ScanUrlItems(items) == ScanUrlItems(items[i..])
    {
      var item := items[i];
      assert items[i..][0] == item && items[i..][1..] == items[i + 1..];
      if item.Obj? && (HasKey(item.fields, "video_url") || HasKey(item.fields, "url")) {
        return Hit(Or(Lookup(item.fields, "video_url", Null), Lookup(item.fields, "url", Null)));
      }
      i := i + 1;
    }
    assert items[i..] == [];
    return Miss;
  }

  /** One step of the search: `videoUrl` is replaced by the probe's value, or kept. */
  lemma SearchStep(ps: seq<Probe>, k: nat, videoUrl: Json, next: Json)
    requires k < |ps| && !Truthy(videoUrl) && !ps[k].Crash?
    requires next == (if ps[k].Hit? then ps[k].value else videoUrl)
    ensures (if Truthy(next) then Found(next) else FirstHit(ps[k + 1..])) == FirstHit(ps[k..])
  {
    assert ps[k..][0] == ps[k] && ps[k..][1..] == ps[k + 1..];
  }

  /** Format 1 as written. */
  method ContentFormat(body: Fields) returns (p: Probe)
    ensures p == ContentProbe(body)
  {
    p := Miss;
    var c := Lookup(body, "content", Null);
    if HasKey(body, "content") && c.Obj? {
      p := Hit(Lookup(c.fields, "video_url", Null));
    }
  }

  /** Format 2 as written: iterating a truthy `data` that is not a list raises. */
  method DataFormat(body: Fields) returns (p: Probe)
    ensures p == DataProbe(body)
  {
    p := Miss;
    var d := Lookup(body, "data", Null);
    if HasKey(body, "data") && Truthy(d) {
      if !d.Arr? {
        return Crash;
      }
      p := ScanDataLoop(d.items);
    }
  }

  /** Format 3 as written. */
  method TopLevelFormat(body: Fields) returns (p: Probe)
    ensures p == TopLevelProbe(body)
  {
    p := Miss;
    if HasKey(body, "video_url") {
      p := Hit(Lookup(body, "video_url", Null));
    }
  }

  /** Format 4 as written. */
  method ResultFormat(body: Fields) returns (p: Probe)
    ensures p == ResultProbe(body)
  {
    p := Miss;
    if HasKey(body, "result") {
      var r := Lookup(body, "result", Null);
      if r.Obj? {
        p := Hit(Or(Lookup(r.fields, "video_url", Null), Lookup(r.fields, "url", Null)));
      } else if r.Arr? && r.items != [] {
        p := ScanUrlItemsLoop(r.items);
      }
    }
  }

  /** Format 5 as written. */
  method OutputsFormat(body: Fields) returns (p: Probe)
    ensures p == OutputsProbe(body)
  {
    p := Miss;
    if HasKey(body, "outputs") {
      var o := Lookup(body, "outputs", Null);
      if o.Arr? && o.items != [] {
        p := ScanUrlItemsLoop(o.items);
      }
    }
  }

  /**
    The search as written: `videoUrl` starts as None and each format is
    tried only while it is falsy; an exception ends the search.
  */
  method ExtractVideoUrl(body: Fields) returns (e: Extraction)
    ensures e == VideoUrlOf(body)
    ensures e.Found? ==> Truthy(e.url)
  {
    ghost var ps := Probes(body);
    var videoUrl := Null;
    assert ps[0..] == ps;
    var p := ContentFormat(body);
    if p.Hit? {
      videoUrl := p.value;
    }
    SearchStep(ps, 0, Null, videoUrl);
    if !Truthy(videoUrl) {
      ghost var before := videoUrl;
      p := DataFormat(body);
      if p.Crash? {
        assert ps[1..][0] == ps[1];
        return Raised;
      }
      if p.Hit? {
        videoUrl := p.value;
      }
      SearchStep(ps, 1, before, videoUrl);
    }
    if !Truthy(videoUrl) {
      ghost var before := videoUrl;
      p := TopLevelFormat(body);
      if p.Hit? {
        videoUrl := p.value;
      }
      SearchStep(ps, 2, before, videoUrl);
    }
    if !Truthy(videoUrl) {
      ghost var before := videoUrl;
      p := ResultFormat(body);
      if p.Hit? {
        videoUrl := p.value;
      }
      SearchStep(ps, 3, before, videoUrl);
    }
    if !Truthy(videoUrl) {
      ghost var before := videoUrl;
      p := OutputsFormat(body);
      if p.Hit? {
        videoUrl := p.value;
      }
      SearchStep(ps, 4, before, videoUrl);
    }
    assert ps[5..] == [];
    if Truthy(videoUrl) {
      e := Found(videoUrl);
    } else {
      e := NotFound;
    }
  }
}
