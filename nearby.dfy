/**
  The handler of api/nearby.js: request validation, the range queries it
  issues, the discovery pass over their snapshots, and the final sort.
  The geohash range queries and the haversine formula are parameters: a
  `Store` answers the range query for a centre and radius with one
  snapshot per geohash range, or with None when a query fails.
 */
module Nearby {
  import opened Common
  import opened Businesses
  import opened Ranking

  /**
    The JSON body of a search. `lat` and `lng` are None when they are not
    numbers; `radiusKm` is None when absent (it then defaults); the flags
    are None when they are not booleans; `category` is "" when falsy.
   */
  datatype NearbyRequest = NearbyRequest(
    lat: Option<real>,
    lng: Option<real>,
    radiusKm: Option<real>,
    hasDelivery: Option<bool>,
    isOpen: Option<bool>,
    category: string)

  /** The payload of a 200 reply: the search result, or the liveness message of GET. */
  datatype NearbyBody = Found(businesses: seq<Business>) | Alive(ok: bool, message: string)

  /**
    The range query over `businesses` for a search: the geohash ranges
    covering `radiusMeters` around the centre, with the equality filters
    `state == true` (always) and `hasDelivery`/`isOpen` when given.
   */
  datatype RangeQuery = RangeQuery(lat: real, lng: real, radiusMeters: real, hasDelivery: Option<bool>, isOpen: Option<bool>)

  /** The snapshots (one per geohash range) answering a range query, or None when one of the queries fails. */
  type Store = RangeQuery -> Option<seq<seq<Doc>>>

  const DefaultRadiusKm: real := 10.0
  const MaxRadiusKm: real := 100.0

  const BadCoordinates: string := "lat y lng inválidos"
  const BadRadius: string := "radiusKm debe estar entre 0 y 100"
  const InternalError: string := "Error interno"
  const AliveMessage: string := "API Nearby funcionando \U{1F680}"

  /** Validation of a search body: coordinates first, then the radius (10 km when absent). */
  function ParseQuery(req: NearbyRequest): (r: Result<Query>)
    ensures (req.lat.None? || req.lng.None?) ==> r == Err(Failure(BAD_REQUEST, BadCoordinates))
    ensures req.lat.Some? && req.lng.Some? ==>
              (r.Err? <==> !(0.0 < req.radiusKm.GetOr(DefaultRadiusKm) <= MaxRadiusKm))
    ensures req.lat.Some? && req.lng.Some? && r.Err? ==> r == Err(Failure(BAD_REQUEST, BadRadius))
    ensures r.Ok? ==> && 0.0 < r.value.radiusKm <= MaxRadiusKm
                      && (req.radiusKm.None? ==> r.value.radiusKm == DefaultRadiusKm)
                      && r.value == Query(req.lat.value, req.lng.value, r.value.radiusKm,
                                          req.hasDelivery, req.isOpen, req.category)
  {
    if req.lat.None? || req.lng.None? then
      Err(Failure(BAD_REQUEST, BadCoordinates))
    else
      var radiusKm := req.radiusKm.GetOr(DefaultRadiusKm);
      if radiusKm <= 0.0 || radiusKm > MaxRadiusKm then
        Err(Failure(BAD_REQUEST, BadRadius))
      else
        Ok(Query(req.lat.value, req.lng.value, radiusKm, req.hasDelivery, req.isOpen, req.category))
  }

  /** The range query a validated search issues. */
  function RangeOf(q: Query): RangeQuery {
    RangeQuery(q.lat, q.lng, RadiusMeters(q), q.hasDelivery, q.isOpen)
  }

  /** The documents of all snapshots, in the order the discovery pass visits them. */
  function Flatten(snaps: seq<seq<Doc>>): seq<Doc> {
    if snaps == [] then [] else Flatten(snaps[..|snaps| - 1]) + snaps[|snaps| - 1]
  }

  /** A document is visited exactly when it is in one of the snapshots. */
  lemma {:induction false} FlattenMembers(snaps: seq<seq<Doc>>)
    ensures forall d :: d in Flatten(snaps) <==> exists i :: 0 <= i < |snaps| && d in snaps[i]
  {
    if snaps != [] {
      var n := |snaps| - 1;
      FlattenMembers(snaps[..n]);
      forall d | d in Flatten(snaps) ensures exists i :: 0 <= i < |snaps| && d in snaps[i] {
        if d in Flatten(snaps[..n]) {
          var i :| 0 <= i < n && d in snaps[..n][i];
        } else {
          assert d in snaps[n];
        }
      }
      forall d, i | 0 <= i < |snaps| && d in snaps[i] ensures d in Flatten(snaps) {
        if i < n {
          assert d in snaps[..n][i];
        }
      }
    }
  }

  lemma FlattenStep(snaps: seq<seq<Doc>>, i: int)
    requires 0 <= i < |snaps|
    ensures Flatten(snaps[..i + 1]) == Flatten(snaps[..i]) + snaps[i]
  {
    assert snaps[..i + 1][..i] == snaps[..i];
  }

  /** One visited document: its id joins the seen set, and Discovered grows by what it contributes. */
  lemma VisitStep(q: Query, h: Haversine, visited: seq<Doc>, doc: Doc)
    ensures Ids(visited + [doc]) == Ids(visited) + {doc.id}
    ensures Discovered(q, h, visited + [doc]) ==
              if doc.id !in Ids(visited) && Admit(q, h, doc).Some?
              then Discovered(q, h, visited) + [Admit(q, h, doc).value]
              else Discovered(q, h, visited)
  {
    assert (visited + [doc])[..|visited|] == visited;
    DiscoveredStep(q, h, visited + [doc]);
    IdsSnoc(visited, doc);
  }

  /**
    The callback of the inner `forEach` for one document, after the
    documents `visited`: skip an id already seen, otherwise mark it and
    keep the record when Admit accepts the document.
   */
  method Visit(q: Query, h: Haversine, ghost visited: seq<Doc>, doc: Doc,
               seen0: set<string>, found0: seq<Business>)
    returns (seen: set<string>, found: seq<Business>)
    requires seen0 == Ids(visited) && found0 == Discovered(q, h, visited)
    ensures seen == Ids(visited + [doc])
    ensures found == Discovered(q, h, visited + [doc])
  {
    VisitStep(q, h, visited, doc);
    seen, found := seen0, found0;
    if doc.id in seen {
      return;
    }
    seen := seen + {doc.id};
    var admitted := Admit(q, h, doc);
    if admitted.Some? {
      found := found + [admitted.value];
    }
  }

  lemma AppendNext<T>(prefix: seq<T>, s: seq<T>, j: int)
    requires 0 <= j < |s|
    ensures prefix + s[..j + 1] == (prefix + s[..j]) + [s[j]]
  {
    assert s[..j + 1] == s[..j] + [s[j]];
  }

  /** The inner `forEach` over one snapshot, after the documents `visited` of the earlier ones. */
  method VisitSnapshot(q: Query, h: Haversine, ghost visited: seq<Doc>, snap: seq<Doc>,
                       seen0: set<string>, found0: seq<Business>)
    returns (seen: set<string>, found: seq<Business>)
    requires seen0 == Ids(visited) && found0 == Discovered(q, h, visited)
    ensures seen == Ids(visited + snap)
    ensures found == Discovered(q, h, visited + snap)
  {
    seen, found := seen0, found0;
    var j := 0;
    ghost var prefix := visited;
    assert visited + snap[..0] == visited;
    while j < |snap|
      invariant 0 <= j <= |snap|
      invariant prefix == visited + snap[..j]
      invariant seen == Ids(prefix) && found == Discovered(q, h, prefix)
    {
      AppendNext(visited, snap, j);
      seen, found := Visit(q, h, prefix, snap[j], seen, found);
      prefix := prefix + [snap[j]];
      j := j + 1;
    }
    assert snap[..j] == snap;
  }

  /** The outer `forEach` over the snapshots, sharing one seen set. */
  method Discover(q: Query, h: Haversine, snaps: seq<seq<Doc>>) returns (found: seq<Business>)
    ensures found == Discovered(q, h, Flatten(snaps))
  {
    found := [];
    var seen: set<string> := {};
    var i := 0;
    while i < |snaps|
      invariant 0 <= i <= |snaps|
      invariant seen == Ids(Flatten(snaps[..i]))
      invariant found == Discovered(q, h, Flatten(snaps[..i]))
    {
      seen, found := VisitSnapshot(q, h, Flatten(snaps[..i]), snaps[i], seen, found);
      FlattenStep(snaps, i);
      i := i + 1;
    }
    assert snaps[..i] == snaps;
  }

  /** The discovery pass followed by the in-place sort on rounded distance. */
  method Search(q: Query, h: Haversine, snaps: seq<seq<Doc>>) returns (result: seq<Business>)
    ensures StablySorted(result, Discovered(q, h, Flatten(snaps)))
  {
    var found := Discover(q, h, snaps);
    var a := new Business[|found|](k requires 0 <= k < |found| => found[k]);
    assert a[..] == found;
    SortByDistance(a);
    result := a[..];
  }

  /**
    The handler. `issued` is the range query sent to the store, if any.
    A POST without a body fails on destructuring and lands in the catch
    block, as does a failed range query.
   */
  method Handle(httpMethod: string, body: Option<NearbyRequest>, h: Haversine, store: Store)
    returns (reply: Reply<NearbyBody>, issued: Option<RangeQuery>)
    ensures httpMethod == "GET" ==> reply == Reply(OK, Data(Alive(true, AliveMessage))) && issued == None
    ensures httpMethod != "GET" && httpMethod != "POST" ==>
              reply == Reply(METHOD_NOT_ALLOWED, Error(MethodNotAllowed)) && issued == None
    ensures httpMethod == "POST" && body.None? ==>
              reply == Reply(INTERNAL_ERROR, Error(InternalError)) && issued == None
    ensures httpMethod == "POST" && body.Some? && ParseQuery(body.value).Err? ==>
              reply == FailureReply(ParseQuery(body.value).failure) && issued == None
    ensures httpMethod == "POST" && body.Some? && ParseQuery(body.value).Ok? ==>
              var q := ParseQuery(body.value).value;
              && issued == Some(RangeOf(q))
              && (store(RangeOf(q)).None? ==> reply == Reply(INTERNAL_ERROR, Error(InternalError)))
              && (store(RangeOf(q)).Some? ==>
                    && reply.status == OK && reply.body.Data? && reply.body.value.Found?
                    && StablySorted(reply.body.value.businesses, Discovered(q, h, Flatten(store(RangeOf(q)).value))))
  {
    issued := None;
    if httpMethod == "POST" {
      if body.None? {
        reply := Reply(INTERNAL_ERROR, Error(InternalError));
        return;
      }
      var parsed := ParseQuery(body.value);
      if parsed.Err? {
        reply := FailureReply(parsed.failure);
        return;
      }
      var q := parsed.value;
      issued := Some(RangeOf(q));
      var snaps := store(RangeOf(q));
      if snaps.None? {
        reply := Reply(INTERNAL_ERROR, Error(InternalError));
        return;
      }
      var businesses := Search(q, h, snaps.value);
      reply := Reply(OK, Data(Found(businesses)));
    } else if httpMethod == "GET" {
      reply := Reply(OK, Data(Alive(true, AliveMessage)));
    } else {
      reply := Reply(METHOD_NOT_ALLOWED, Error(MethodNotAllowed));
    }
  }

  /**
    What a search returns, for documents `docs`: distinct ids; only
    first-seen documents Admit accepts, each within the radius; all of
    them; ascending rounded distance.
   */
  lemma NearbyResults(q: Query, h: Haversine, docs: seq<Doc>, r: seq<Business>)
    requires StablySorted(r, Discovered(q, h, docs))
    ensures DistinctIds(r)
    ensures forall b :: b in r ==> exists k :: FirstAt(docs, k) && Admit(q, h, docs[k]) == Some(b)
    ensures forall b :: b in r ==> b.distanceMeters <= Round(RadiusMeters(q))
    ensures forall k :: FirstAt(docs, k) && Admit(q, h, docs[k]).Some? ==> Admit(q, h, docs[k]).value in r
    ensures SortedByDistance(r)
  {
    var d := Discovered(q, h, docs);
    DiscoveredDistinct(q, h, docs);
    DistinctIdsPermutation(r, d);
    DiscoveredSound(q, h, docs);
    DiscoveredComplete(q, h, docs);
    forall b | b in r ensures b in d {
      assert b in multiset(r);
    }
    forall b | b in r ensures b.distanceMeters <= Round(RadiusMeters(q)) {
      var k :| FirstAt(docs, k) && Admit(q, h, docs[k]) == Some(b);
      RoundMonotone(DocDistance(q, h, docs[k].data).value, RadiusMeters(q));
    }
    forall k | FirstAt(docs, k) && Admit(q, h, docs[k]).Some? ensures Admit(q, h, docs[k]).value in r {
      assert Admit(q, h, docs[k]).value in multiset(d);
    }
  }

  /** Records at the same rounded distance come out in the order their documents were visited. */
  lemma NearbyStable(q: Query, h: Haversine, docs: seq<Doc>, r: seq<Business>)
    requires StablySorted(r, Discovered(q, h, docs))
    ensures forall i, j :: 0 <= i < j < |r| && r[i].distanceMeters == r[j].distanceMeters ==>
              OrderedPair(q, h, docs, r[i], r[j])
  {
    var d := Discovered(q, h, docs);
    DiscoveredInOrder(q, h, docs);
    forall i, j | 0 <= i < j < |r| && r[i].distanceMeters == r[j].distanceMeters
      ensures OrderedPair(q, h, docs, r[i], r[j])
    {
      var m := r[i].distanceMeters;
      AtDistanceKeepsOrder(r, i, j, m);
      var g := AtDistance(r, m);
      var p, u :| 0 <= p < u < |g| && g[p] == r[i] && g[u] == r[j];
      assert g == AtDistance(d, m);
      AtDistanceInOrder(d, m, p, u);
      var x, y :| 0 <= x < y < |d| && d[x] == r[i] && d[y] == r[j];
    }
  }
}
