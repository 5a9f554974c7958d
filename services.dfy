/**
 * `/api/services`: the relation to include per service type, the flattening of the
 * included relation into `specificService`, and the creation of a service with its
 * type-specific rows.
 */
module Services {
  import opened Wrappers
  import opened JsText

  /** A JSON value as the route handles it. Absent and null fields are both JNull here. */
  datatype Json =
    | JNull
    | JBool(b: bool)
    | JNum(n: real)
    | JStr(s: string)
    | JArr(items: seq<Json>)
    | JObj(fields: seq<Field>)

  /** One own property of an object, in `Object.keys` order. */
  datatype Field = Field(key: string, value: Json)

  /** JavaScript truthiness (NaN is not modelled). */
  predicate Truthy(v: Json)
  {
    match v
    case JNull => false
    case JBool(b) => b
    case JNum(n) => n != 0.0
    case JStr(s) => s != ""
    case JArr(_) => true
    case JObj(_) => true
  }

  /** A service row as the store returns it: its fields in key order. */
  type Row = seq<Field>

  /** The nine service types the route knows. */
  const ServiceTypes: seq<string> :=
    ["hotel", "car", "gym", "salon", "hall", "activity", "flight", "playground", "restaurant"]

  /** `getServiceInclude`: one relation flag per known type, nothing for any other type. */
  function GetServiceInclude(serviceType: string): map<string, bool>
  {
    match serviceType
    case "hotel" => map["hotelServices" := true]
    case "car" => map["carServices" := true]
    case "gym" => map["gymServices" := true]
    case "salon" => map["salonServices" := true]
    case "hall" => map["hallServices" := true]
    case "activity" => map["activityServices" := true]
    case "flight" => map["flightServices" := true]
    case "playground" => map["playgroundServices" := true]
    case "restaurant" => map["RestaurantService" := true]
    case _ => map[]
  }

  /** Each of the nine known types includes exactly its own relation. */
  lemma IncludeTable()
    ensures GetServiceInclude("hotel") == map["hotelServices" := true]
    ensures GetServiceInclude("car") == map["carServices" := true]
    ensures GetServiceInclude("gym") == map["gymServices" := true]
    ensures GetServiceInclude("salon") == map["salonServices" := true]
    ensures GetServiceInclude("hall") == map["hallServices" := true]
    ensures GetServiceInclude("activity") == map["activityServices" := true]
    ensures GetServiceInclude("flight") == map["flightServices" := true]
    ensures GetServiceInclude("playground") == map["playgroundServices" := true]
    ensures GetServiceInclude("restaurant") == map["RestaurantService" := true]
  {
  }

  /** Any other type includes nothing. */
  lemma UnknownIncludesNothing(serviceType: string)
    requires serviceType !in ServiceTypes
    ensures GetServiceInclude(serviceType) == map[]
  {
  }

  /**
   * Every included relation name ends in "Services" except the restaurant one,
   * which the flattening step therefore does not find.
   */
  lemma RelationSuffixes()
    ensures EndsWith("hotelServices", "Services") && EndsWith("carServices", "Services")
    ensures EndsWith("gymServices", "Services") && EndsWith("salonServices", "Services")
    ensures EndsWith("hallServices", "Services") && EndsWith("activityServices", "Services")
    ensures EndsWith("flightServices", "Services") && EndsWith("playgroundServices", "Services")
    ensures !EndsWith("RestaurantService", "Services")
  {
    var k := "RestaurantService";
    assert k[|k| - 8..][0] == 't';
  }

  /** The first key, in key order, that ends with "Services" (`Object.keys(service).find`). */
  function FindRelationKey(r: Row): (k: Option<string>)
    ensures k.Some? ==> EndsWith(k.value, "Services") && exists i :: 0 <= i < |r| && r[i].key == k.value
    ensures k.None? ==> forall i :: 0 <= i < |r| ==> !EndsWith(r[i].key, "Services")
    ensures k.Some? ==> FirstRelationAt(r, k.value)
  {
    if r == [] then None
    else if EndsWith(r[0].key, "Services") then Some(r[0].key)
    else
      var k := FindRelationKey(r[1..]);
      if k.Some? then
        FirstRelationShift(r, k.value);
        k
      else k
  }

  /** `key` is the key of some field, and no earlier field's key ends with "Services". */
  predicate FirstRelationAt(r: Row, key: string)
  {
    exists i :: 0 <= i < |r| && r[i].key == key && forall j :: 0 <= j < i ==> !EndsWith(r[j].key, "Services")
  }

  lemma FirstRelationShift(r: Row, key: string)
    requires r != [] && !EndsWith(r[0].key, "Services")
    requires FirstRelationAt(r[1..], key)
    ensures FirstRelationAt(r, key)
    ensures exists i :: 0 <= i < |r| && r[i].key == key
  {
    var i :| 0 <= i < |r| - 1 && r[1..][i].key == key && forall j :: 0 <= j < i ==> !EndsWith(r[1..][j].key, "Services");
    assert r[i + 1].key == key;
    forall j | 0 <= j < i + 1
      ensures !EndsWith(r[j].key, "Services")
    {
      if j > 0 { assert r[j] == r[1..][j - 1]; }
    }
  }

  /** The value of the first field with key `k`. */
  function Lookup(r: Row, k: string): Option<Json>
  {
    if r == [] then None else if r[0].key == k then Some(r[0].value) else Lookup(r[1..], k)
  }

  /** The object rest pattern: every field except `k`, in order. */
  function Without(r: Row, k: string): Row
  {
    if r == [] then []
    else if r[0].key == k then Without(r[1..], k)
    else [r[0]] + Without(r[1..], k)
  }

  /** An object spread followed by `k: v`: an existing `k` keeps its place, otherwise `k` goes last. */
  function SetField(r: Row, k: string, v: Json): Row
  {
    if r == [] then [Field(k, v)]
    else if r[0].key == k then [Field(k, v)] + r[1..]
    else [r[0]] + SetField(r[1..], k, v)
  }

  /**
   * The `transformedServices` map for one row: the relation found by `find` (or the
   * key "undefined" when `find` finds nothing, as the computed destructuring key
   * then is) is removed, and its value, or null when falsy, becomes `specificService`.
   */
  function Flatten(r: Row): Row
  {
    var key := match FindRelationKey(r) case Some(k) => k case None => "undefined";
    var specific := Lookup(r, key);
    SetField(Without(r, key), "specificService",
             if specific.Some? && Truthy(specific.value) then specific.value else JNull)
  }

  lemma {:induction false} LookupWithout(r: Row, k: string, other: string)
    requires other != k
    ensures Lookup(Without(r, k), other) == Lookup(r, other)
    ensures Lookup(Without(r, k), k) == None
  {
    if r != [] {
      LookupWithout(r[1..], k, other);
    }
  }

  lemma {:induction false} LookupSetField(r: Row, k: string, v: Json, other: string)
    ensures Lookup(SetField(r, k, v), k) == Some(v)
    ensures other != k ==> Lookup(SetField(r, k, v), other) == Lookup(r, other)
  {
    if r != [] && r[0].key != k {
      LookupSetField(r[1..], k, v, other);
    }
  }

  /**
   * After flattening, the found relation is gone, `specificService` holds its value
   * (null when there was none or it was falsy), and every other field is unchanged.
   */
  lemma FlattenFields(r: Row, other: string)
    requires FindRelationKey(r).Some?
    ensures var k := FindRelationKey(r).value;
      Lookup(Flatten(r), k) == None
      && Lookup(Flatten(r), "specificService") ==
           Some(if Lookup(r, k).Some? && Truthy(Lookup(r, k).value) then Lookup(r, k).value else JNull)
      && (other != k && other != "specificService" ==> Lookup(Flatten(r), other) == Lookup(r, other))
  {
    var k := FindRelationKey(r).value;
    var v := if Lookup(r, k).Some? && Truthy(Lookup(r, k).value) then Lookup(r, k).value else JNull;
    SpecificServiceIsNoRelation();
    assert Flatten(r) == SetField(Without(r, k), "specificService", v);
    MoveField(r, k, v, other);
  }

  lemma SpecificServiceIsNoRelation()
    ensures !EndsWith("specificService", "Services")
  {
    assert "specificService"[15 - 8..][0] == 'c';
  }

  /** Removing `k` and then setting `specificService` leaves every other field alone. */
  lemma MoveField(r: Row, k: string, v: Json, other: string)
    requires k != "specificService"
    ensures Lookup(SetField(Without(r, k), "specificService", v), k) == None
    ensures Lookup(SetField(Without(r, k), "specificService", v), "specificService") == Some(v)
    ensures other != k && other != "specificService" ==>
      Lookup(SetField(Without(r, k), "specificService", v), other) == Lookup(r, other)
  {
    LookupSetField(Without(r, k), "specificService", v, k);
    LookupWithout(r, k, "specificService");
    LookupSetField(Without(r, k), "specificService", v, other);
    if other != k {
      LookupWithout(r, k, other);
    }
  }

  /**
   * A row with no key ending in "Services", such as a restaurant row whose relation
   * is `RestaurantService`, keeps every field in place and gains `specificService: null`.
   */
  lemma {:induction false} FlattenWithoutRelation(r: Row)
    requires forall i :: 0 <= i < |r| ==> !EndsWith(r[i].key, "Services")
    requires forall i :: 0 <= i < |r| ==> r[i].key != "undefined" && r[i].key != "specificService"
    ensures Flatten(r) == r + [Field("specificService", JNull)]
  {
    assert FindRelationKey(r).None?;
    KeepAll(r, "undefined");
    NoUndefined(r);
    AppendWhenAbsent(r, "specificService", JNull);
  }

  lemma {:induction false} KeepAll(r: Row, k: string)
    requires forall i :: 0 <= i < |r| ==> r[i].key != k
    ensures Without(r, k) == r
  {
    if r != [] {
      KeepAll(r[1..], k);
      assert r == [r[0]] + r[1..];
    }
  }

  lemma {:induction false} NoUndefined(r: Row)
    requires forall i :: 0 <= i < |r| ==> r[i].key != "undefined"
    ensures Lookup(r, "undefined") == None
  {
    if r != [] {
      NoUndefined(r[1..]);
    }
  }

  lemma {:induction false} AppendWhenAbsent(r: Row, k: string, v: Json)
    requires forall i :: 0 <= i < |r| ==> r[i].key != k
    ensures SetField(r, k, v) == r + [Field(k, v)]
  {
    if r != [] {
      AppendWhenAbsent(r[1..], k, v);
      assert r == [r[0]] + r[1..];
    }
  }

  /** A request parameter is missing when absent or empty. */
  predicate Missing(p: Option<string>)
  {
    p.None? || p.value == ""
  }

  datatype ListResponse =
    | TypeRequired      // 400
    | ListError         // 500
    | Listed(services: seq<Row>)  // 200

  /** `GET /api/services?serviceType=`: the fetched rows of that type, each flattened. */
  function GetServices(serviceType: Option<string>, fetched: seq<Row>, storeFails: bool): (r: ListResponse)
    ensures r == TypeRequired <==> Missing(serviceType)
    ensures !Missing(serviceType) ==> (r == ListError <==> storeFails)
    ensures !Missing(serviceType) && !storeFails ==> r.Listed?
    ensures r.Listed? ==> |r.services| == |fetched| && forall i :: 0 <= i < |fetched| ==> r.services[i] == Flatten(fetched[i])
  {
    if Missing(serviceType) then TypeRequired
    else if storeFails then ListError
    else Listed(seq(|fetched|, i requires 0 <= i < |fetched| => Flatten(fetched[i])))
  }

  /** The `service` object of a create request. */
  datatype ServiceInput = ServiceInput(
    sellerId: Json,
    serviceType: Json,
    name: Json,
    description: Json,
    location: Json,
    rating: Json)

  datatype NewService = NewService(
    id: int,
    sellerId: Json,
    serviceType: Json,
    name: Json,
    description: Json,
    location: Json,
    rating: Json,
    isApproved: bool,
    isRejected: bool)

  /** A type-specific row, kept as the submitted object (its column conversions are not modelled). */
  datatype ChildRow = ChildRow(serviceId: int, serviceType: string, row: Json)

  /** Which store write throws, if any. */
  datatype PostFault = NoFault | BaseCreateFails | ChildCreateFails

  /** The known type of a request, if its `type` is one of the nine. */
  function KnownType(t: Json): Option<string>
  {
    if t.JStr? && t.s in ServiceTypes then Some(t.s) else None
  }

  function ChildRows(serviceId: int, serviceType: string, rows: seq<Json>): (r: seq<ChildRow>)
    ensures |r| == |rows|
    ensures forall i :: 0 <= i < |rows| ==> r[i] == ChildRow(serviceId, serviceType, rows[i])
  {
    seq(|rows|, i requires 0 <= i < |rows| => ChildRow(serviceId, serviceType, rows[i]))
  }

  /** The store tables `POST /api/services` writes. */
  class ServiceStore {
    var services: seq<NewService>
    var children: seq<ChildRow>
    var nextId: int

    constructor ()
      ensures services == [] && children == []
    {
      services, children, nextId := [], [], 1;
    }

    /** The base row a valid request creates: awaiting approval, not rejected. */
    function BaseRow(input: ServiceInput): NewService
      reads this
    {
      NewService(nextId, input.sellerId, input.serviceType, input.name, input.description,
                 input.location, input.rating, false, false)
    }

    /**
     * `POST /api/services`: checks the three required fields, creates the base
     * service, then the type-specific rows. An unknown type with rows is refused
     * only after the base service exists.
     */
    method Post(input: ServiceInput, specificServices: seq<Json>, fault: PostFault) returns (status: int)
      modifies this
      ensures !Truthy(input.sellerId) || !Truthy(input.serviceType) || !Truthy(input.name) ==>
        status == 400 && services == old(services) && children == old(children)
      ensures Truthy(input.sellerId) && Truthy(input.serviceType) && Truthy(input.name) ==>
        if fault == BaseCreateFails then
          status == 500 && services == old(services) && children == old(children)
        else
          services == old(services) + [old(BaseRow(input))]
          && (if |specificServices| == 0 then status == 201 && children == old(children)
              else if KnownType(input.serviceType).None? then status == 400 && children == old(children)
              else if fault == ChildCreateFails then status == 500 && children == old(children)
              else status == 201
                   && children == old(children) + ChildRows(old(nextId), KnownType(input.serviceType).value, specificServices))
    {
      if !Truthy(input.sellerId) || !Truthy(input.serviceType) || !Truthy(input.name) {
        return 400;
      }
      if fault == BaseCreateFails {
        return 500;
      }
      var newService := BaseRow(input);
      services := services + [newService];
      nextId := nextId + 1;
      if |specificServices| > 0 {
        var known := KnownType(input.serviceType);
        if known.None? {
          return 400;
        }
        if fault == ChildCreateFails {
          return 500;
        }
        children := children + ChildRows(newService.id, known.value, specificServices);
      }
      return 201;
    }
  }

  /** Every created service starts unapproved and unrejected. */
  lemma NewServicesAwaitApproval(store: ServiceStore, input: ServiceInput)
    ensures !store.BaseRow(input).isApproved && !store.BaseRow(input).isRejected
  {
  }
}
