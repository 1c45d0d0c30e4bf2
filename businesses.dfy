/**
  The records of the nearby-business search (api/nearby.js) and the
  specification of its discovery pass: which stored documents become
  results, and in which order they are discovered.
 */
module Businesses {
  import opened Common
  import Text

  /** One entry of a stored business's `categories` array; `name` is None for a null entry or one without a name. */
  datatype CategoryEntry = CategoryEntry(name: Option<string>)

  /**
    A stored business document as the search reads it. Every field may be
    absent (None). `deliveryPrice` is what `parseFloat` makes of the stored
    value, None when that is NaN. `categories` and `schedule` are None when
    the stored value is not an array; schedule entries are carried through
    untouched, so they are kept as opaque strings.
   */
  datatype BusinessDoc = BusinessDoc(
    ownerId: Option<string>,
    name: Option<string>,
    description: Option<string>,
    direction: Option<string>,
    phone: Option<string>,
    state: Option<bool>,
    date: Option<int>,
    logoUrl: Option<string>,
    isOpen: Option<bool>,
    hasDelivery: Option<bool>,
    deliveryPrice: Option<real>,
    latitude: Option<real>,
    longitude: Option<real>,
    geohash: Option<string>,
    categories: Option<seq<CategoryEntry>>,
    schedule: Option<seq<string>>,
    addressNotes: Option<string>,
    bank: Option<string>,
    phonePayment: Option<string>,
    idCardPayment: Option<string>)

  /** A document of a range-query snapshot: its id and its data. */
  datatype Doc = Doc(id: string, data: BusinessDoc)

  /** One element of the `businesses` array of the reply. */
  datatype Business = Business(
    id: string,
    businessId: string,
    ownerId: string,
    name: string,
    description: string,
    direction: string,
    phone: string,
    state: bool,
    date: Option<int>,
    logoUrl: Option<string>,
    isOpen: bool,
    hasDelivery: bool,
    deliveryPrice: real,
    latitude: Option<real>,
    longitude: Option<real>,
    geohash: Option<string>,
    categories: seq<CategoryEntry>,
    schedule: seq<string>,
    addressNotes: Option<string>,
    bank: string,
    phonePayment: string,
    idCardPayment: string,
    distanceMeters: int)

  /** The great-circle distance in metres between (lat1, lng1) and (lat2, lng2); the haversine formula itself is a parameter. */
  type Haversine = (real, real, real, real) -> real

  /** A validated search request: centre, radius in kilometres, optional flag filters and a category ("" for none). */
  datatype Query = Query(
    lat: real,
    lng: real,
    radiusKm: real,
    hasDelivery: Option<bool>,
    isOpen: Option<bool>,
    category: string)

  function RadiusMeters(q: Query): real {
    q.radiusKm * 1000.0
  }

  /** `Math.round`: the nearest integer, halves rounded up. */
  function Round(x: real): (r: int)
    ensures r as real - 0.5 <= x < r as real + 0.5
  {
    (x + 0.5).Floor
  }

  lemma RoundMonotone(x: real, y: real)
    requires x <= y
    ensures Round(x) <= Round(y)
  {
  }

  /** `s || null` for a stored string: an empty string becomes null. */
  function TextOrNull(s: Option<string>): Option<string> {
    if s == Some("") then None else s
  }

  /** `n || null` for a stored number: zero becomes null. */
  function NumberOrNull(n: Option<int>): Option<int> {
    if n == Some(0) then None else n
  }

  /** `!!b` for a stored flag. */
  function Truthy(b: Option<bool>): bool {
    b == Some(true)
  }

  /**
    The exact distance of a document from the centre. A document without
    coordinates has none: JavaScript computes NaN, which fails every
    comparison.
   */
  function DocDistance(q: Query, h: Haversine, d: BusinessDoc): Option<real> {
    if d.latitude.Some? && d.longitude.Some? then
      Some(h(q.lat, q.lng, d.latitude.value, d.longitude.value))
    else
      None
  }

  /** `c?.name?.toLowerCase().trim() === key`: an entry without a name never matches. */
  predicate NameIs(c: CategoryEntry, key: string) {
    c.name.Some? && Text.Normalize(c.name.value) == key
  }

  /** `cats.some(c => c?.name?.toLowerCase().trim() === key)`. */
  function NameMatches(cats: seq<CategoryEntry>, key: string): (b: bool)
    ensures b <==> exists i :: 0 <= i < |cats| && NameIs(cats[i], key)
  {
    if cats == [] then false
    else NameMatches(cats[..|cats| - 1], key) || NameIs(cats[|cats| - 1], key)
  }

  /** The category filter: no filter for an empty category, otherwise a name match inside an array of categories. */
  function InCategory(q: Query, d: BusinessDoc): bool {
    q.category == "" || (d.categories.Some? && NameMatches(d.categories.value, Text.Normalize(q.category)))
  }

  /**
    A non-empty category keeps a document exactly when its categories are
    an array with an entry whose name, lower-cased and trimmed, is the
    lower-cased, trimmed category; an empty one keeps every document.
   */
  lemma InCategoryMeaning(q: Query, d: BusinessDoc)
    ensures q.category == "" ==> InCategory(q, d)
    ensures q.category != "" ==>
              (InCategory(q, d) <==> && d.categories.Some?
                                     && exists i :: && 0 <= i < |d.categories.value|
                                                    && d.categories.value[i].name.Some?
                                                    && Text.Normalize(d.categories.value[i].name.value) == Text.Normalize(q.category))
  {
    if q.category != "" && d.categories.Some? {
      var b := NameMatches(d.categories.value, Text.Normalize(q.category));
    }
  }

  /** The reply record built from a document at exact distance `dist`. */
  function ToBusiness(id: string, d: BusinessDoc, dist: real): Business {
    Business(
      id := id,
      businessId := id,
      ownerId := d.ownerId.GetOr(""),
      name := d.name.GetOr(""),
      description := d.description.GetOr(""),
      direction := d.direction.GetOr(""),
      phone := d.phone.GetOr(""),
      state := d.state.GetOr(true),
      date := NumberOrNull(d.date),
      logoUrl := TextOrNull(d.logoUrl),
      isOpen := Truthy(d.isOpen),
      hasDelivery := Truthy(d.hasDelivery),
      deliveryPrice := d.deliveryPrice.GetOr(0.0),
      latitude := d.latitude,
      longitude := d.longitude,
      geohash := TextOrNull(d.geohash),
      categories := d.categories.GetOr([]),
      schedule := d.schedule.GetOr([]),
      addressNotes := TextOrNull(d.addressNotes),
      bank := d.bank.GetOr(""),
      phonePayment := d.phonePayment.GetOr(""),
      idCardPayment := d.idCardPayment.GetOr(""),
      distanceMeters := Round(dist))
  }

  /** What a first-seen document contributes: a record when it lies within the radius and passes the category filter. */
  function Admit(q: Query, h: Haversine, doc: Doc): (r: Option<Business>)
    ensures r.Some? <==> && DocDistance(q, h, doc.data).Some?
                         && DocDistance(q, h, doc.data).value <= RadiusMeters(q)
                         && InCategory(q, doc.data)
    ensures r.Some? ==> && r.value.id == doc.id
                        && r.value.businessId == doc.id
                        && r.value.distanceMeters == Round(DocDistance(q, h, doc.data).value)
  {
    var dist := DocDistance(q, h, doc.data);
    if dist.Some? && dist.value <= RadiusMeters(q) && InCategory(q, doc.data) then
      Some(ToBusiness(doc.id, doc.data, dist.value))
    else
      None
  }

  /** The ids of a sequence of documents. */
  function Ids(docs: seq<Doc>): set<string> {
    set i | 0 <= i < |docs| :: docs[i].id
  }

  /** Marking one more document's id as seen. */
  lemma IdsSnoc(docs: seq<Doc>, d: Doc)
    ensures Ids(docs + [d]) == Ids(docs) + {d.id}
  {
    var t := docs + [d];
    assert t[|docs|] == d;
    forall x | x in Ids(docs) ensures x in Ids(t) {
      var i :| 0 <= i < |docs| && docs[i].id == x;
      assert t[i] == docs[i];
    }
  }

  /** `docs[k]` is the first document with its id. */
  predicate FirstAt(docs: seq<Doc>, k: int) {
    0 <= k < |docs| && docs[k].id !in Ids(docs[..k])
  }

  /**
    The records the discovery pass collects from the documents, in the
    order they are met: a document whose id was already seen is skipped
    (whether or not the earlier one was kept); otherwise its id is marked
    seen and it is kept if Admit accepts it.
   */
  function Discovered(q: Query, h: Haversine, docs: seq<Doc>): seq<Business> {
    if docs == [] then []
    else
      var init := docs[..|docs| - 1];
      var last := docs[|docs| - 1];
      var rest := Discovered(q, h, init);
      if last.id !in Ids(init) && Admit(q, h, last).Some? then rest + [Admit(q, h, last).value] else rest
  }

  /** No two records share an id. */
  predicate DistinctIds(s: seq<Business>) {
    forall i, j :: 0 <= i < j < |s| ==> s[i].id != s[j].id
  }

  lemma FirstAtPrefix(docs: seq<Doc>, n: int, k: int)
    requires 0 <= k < n <= |docs|
    ensures FirstAt(docs[..n], k) <==> FirstAt(docs, k)
  {
    assert docs[..n][..k] == docs[..k];
  }

  /** Every collected record comes from the first document with its id, which Admit accepts. */
  lemma {:induction false} DiscoveredSound(q: Query, h: Haversine, docs: seq<Doc>)
    ensures forall b :: b in Discovered(q, h, docs) ==>
              exists k :: FirstAt(docs, k) && Admit(q, h, docs[k]) == Some(b)
  {
    if docs != [] {
      var n := |docs| - 1;
      var init := docs[..n];
      DiscoveredSound(q, h, init);
      forall b | b in Discovered(q, h, docs)
        ensures exists k :: FirstAt(docs, k) && Admit(q, h, docs[k]) == Some(b)
      {
        if b in Discovered(q, h, init) {
          var k :| FirstAt(init, k) && Admit(q, h, init[k]) == Some(b);
          FirstAtPrefix(docs, n, k);
        } else {
          assert docs[..n] == init;
          assert FirstAt(docs, n) && Admit(q, h, docs[n]) == Some(b);
        }
      }
    }
  }

  /** Every first-seen document that Admit accepts is collected. */
  lemma {:induction false} DiscoveredComplete(q: Query, h: Haversine, docs: seq<Doc>)
    ensures forall k :: FirstAt(docs, k) && Admit(q, h, docs[k]).Some? ==>
              Admit(q, h, docs[k]).value in Discovered(q, h, docs)
  {
    if docs != [] {
      var n := |docs| - 1;
      var init := docs[..n];
      DiscoveredComplete(q, h, init);
      forall k | FirstAt(docs, k) && Admit(q, h, docs[k]).Some?
        ensures Admit(q, h, docs[k]).value in Discovered(q, h, docs)
      {
        if k < n {
          FirstAtPrefix(docs, n, k);
          assert init[k] == docs[k];
        } else {
          assert docs[..n] == init;
        }
      }
    }
  }

  /** The collected records have pairwise distinct ids. */
  lemma {:induction false} DiscoveredDistinct(q: Query, h: Haversine, docs: seq<Doc>)
    ensures DistinctIds(Discovered(q, h, docs))
  {
    if docs != [] {
      var n := |docs| - 1;
      var init := docs[..n];
      DiscoveredDistinct(q, h, init);
      DiscoveredSound(q, h, init);
      var rest := Discovered(q, h, init);
      forall b | b in rest ensures b.id in Ids(init) {
        var k :| FirstAt(init, k) && Admit(q, h, init[k]) == Some(b);
      }
    }
  }

  /** Discovered unfolded once: the records of all but the last document, then possibly the last one's. */
  lemma DiscoveredStep(q: Query, h: Haversine, docs: seq<Doc>)
    requires docs != []
    ensures var n := |docs| - 1;
            Discovered(q, h, docs) ==
              if docs[n].id !in Ids(docs[..n]) && Admit(q, h, docs[n]).Some?
              then Discovered(q, h, docs[..n]) + [Admit(q, h, docs[n]).value]
              else Discovered(q, h, docs[..n])
  {
  }

  /** Two records of the discovery pass come from two first-seen documents in the same order. */
  predicate OrderedPair(q: Query, h: Haversine, docs: seq<Doc>, x: Business, y: Business) {
    exists ki, kj :: && 0 <= ki < kj < |docs|
                     && FirstAt(docs, ki) && Admit(q, h, docs[ki]) == Some(x)
                     && FirstAt(docs, kj) && Admit(q, h, docs[kj]) == Some(y)
  }

  /** An ordered pair of documents of a prefix stays an ordered pair of the whole sequence. */
  lemma OrderedPairExtends(q: Query, h: Haversine, docs: seq<Doc>, n: int, x: Business, y: Business)
    requires 0 <= n <= |docs|
    requires OrderedPair(q, h, docs[..n], x, y)
    ensures OrderedPair(q, h, docs, x, y)
  {
    var ki, kj :| && 0 <= ki < kj < n
                  && FirstAt(docs[..n], ki) && Admit(q, h, docs[..n][ki]) == Some(x)
                  && FirstAt(docs[..n], kj) && Admit(q, h, docs[..n][kj]) == Some(y);
    FirstAtPrefix(docs, n, ki);
    FirstAtPrefix(docs, n, kj);
  }

  /** The collected records are in discovery order. */
  lemma {:induction false} DiscoveredInOrder(q: Query, h: Haversine, docs: seq<Doc>)
    ensures forall i, j :: 0 <= i < j < |Discovered(q, h, docs)| ==>
              OrderedPair(q, h, docs, Discovered(q, h, docs)[i], Discovered(q, h, docs)[j])
  {
    if docs != [] {
      var n := |docs| - 1;
      var init := docs[..n];
      var rest := Discovered(q, h, init);
      var out := Discovered(q, h, docs);
      DiscoveredInOrder(q, h, init);
      DiscoveredSound(q, h, init);
      DiscoveredStep(q, h, docs);
      assert docs[..n] == init;
      forall i, j | 0 <= i < j < |out|
        ensures OrderedPair(q, h, docs, out[i], out[j])
      {
        assert out[i] == rest[i];
        if j < |rest| {
          assert out[j] == rest[j];
          OrderedPairExtends(q, h, docs, n, rest[i], rest[j]);
        } else {
          assert rest[i] in rest;
          var ki :| FirstAt(init, ki) && Admit(q, h, init[ki]) == Some(rest[i]);
          FirstAtPrefix(docs, n, ki);
          assert FirstAt(docs, n) && Admit(q, h, docs[n]) == Some(out[j]);
        }
      }
    }
  }
}
