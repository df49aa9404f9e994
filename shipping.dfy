/*
 * models/shipping/shipping.model.js: the status update with its tracking
 * history, the placeholder cost formula, the one-shot label generation and
 * the active-shipments query. The clock is the parameter `now` (ms) and the
 * random three-character suffix of a tracking number is the parameter
 * `random`. Every method ends in save(), whose schema validation is modelled
 * by Saveable: the returned Result says whether that save succeeds, and the
 * document keeps its assigned fields either way.
 */
module Shipping {
  import opened Common

  const MSG_LABEL_EXISTS: string := "Shipping label already exists"
  const MSG_VALIDATION: string := "Shipping validation failed"

  /** The enum of the top-level `status` path. */
  predicate ShippingStatus(s: string)
  {
    s == "pending" || s == "processing" || s == "shipped" || s == "delivered" || s == "failed" || s == "returned"
  }

  /** The enum of the `tracking.status` path. */
  predicate TrackingStatus(s: string)
  {
    s == "pending" || s == "label_created" || s == "picked_up" || s == "in_transit" ||
    s == "out_for_delivery" || s == "delivered" || s == "failed" || s == "returned"
  }

  /** One entry of tracking.history. */
  datatype Event = Event(status: string, location: string, description: string, timestamp: int)

  /** The fields of a shipment the methods read and write. */
  datatype Shipment = Shipment(
    carrier: string,
    weight: real,
    cost: real,
    trackingNumber: Option<string>,
    trackingStatus: string,
    history: seq<Event>,
    actualDelivery: Option<int>,
    status: string,
    createdAt: int)

  /** What save() validates of the modelled fields: both enums and `method.cost` at least 0. */
  predicate Saveable(s: Shipment)
  {
    ShippingStatus(s.status) && TrackingStatus(s.trackingStatus) && s.cost >= 0.0
  }

  /** The outcome of the save() a method ends with. */
  function SaveOutcome(s: Shipment): (r: Result<Shipment>)
    ensures r.Ok? <==> Saveable(s)
    ensures r.Ok? ==> r.value == s
    ensures r.Fail? ==> r.error == Thrown(MSG_VALIDATION)
  {
    if Saveable(s) then Ok(s) else Fail(Thrown(MSG_VALIDATION))
  }

  function UpdateStatusSpec(s: Shipment, status: string, location: string, description: string, now: int): Shipment
  {
    s.(status := status, trackingStatus := status,
       history := s.history + [Event(status, location, description, now)],
       actualDelivery := if status == "delivered" then Some(now) else s.actualDelivery)
  }

  /**
   * updateStatus writes the argument to both status paths, appends exactly one
   * history entry and stamps actualDelivery only on 'delivered'; nothing else changes.
   */
  lemma UpdateStatusEffect(s: Shipment, status: string, location: string, description: string, now: int)
    ensures var t := UpdateStatusSpec(s, status, location, description, now);
            t.status == status && t.trackingStatus == status &&
            |t.history| == |s.history| + 1 && t.history[..|s.history|] == s.history &&
            t.history[|s.history|] == Event(status, location, description, now) &&
            (status == "delivered" ==> t.actualDelivery == Some(now)) &&
            t.(status := s.status, trackingStatus := s.trackingStatus, history := s.history, actualDelivery := s.actualDelivery) == s
  {
  }

  /**
   * The two enums share only four values, so the save after updateStatus
   * succeeds exactly for those (given a saveable shipment).
   */
  lemma UpdateStatusSavesIff(s: Shipment, status: string, location: string, description: string, now: int)
    requires Saveable(s)
    ensures SaveOutcome(UpdateStatusSpec(s, status, location, description, now)).Ok? <==>
            status == "pending" || status == "delivered" || status == "failed" || status == "returned"
  {
  }

  /**
   * As written, moving a shipment to 'shipped' (a top-level status) or to
   * 'in_transit' (a tracking status) can never be saved.
   */
  lemma ShippedNeverSavesAsWritten(s: Shipment, location: string, description: string, now: int)
    ensures SaveOutcome(UpdateStatusSpec(s, "shipped", location, description, now)) == Fail(Thrown(MSG_VALIDATION))
    ensures SaveOutcome(UpdateStatusSpec(s, "in_transit", location, description, now)) == Fail(Thrown(MSG_VALIDATION))
  {
  }

  /** The tracking status that goes with each top-level status. */
  function TrackingFor(status: string): (t: string)
    requires ShippingStatus(status)
    ensures TrackingStatus(t)
  {
    if status == "processing" then "label_created"
    else if status == "shipped" then "in_transit"
    else status
  }

  /** updateStatus writing each path a value from its own enum. */
  function UpdateStatusCorrected(s: Shipment, status: string, location: string, description: string, now: int): Shipment
    requires ShippingStatus(status)
  {
    UpdateStatusSpec(s, status, location, description, now).(trackingStatus := TrackingFor(status))
  }

  /** Corrected: every top-level status can be saved, and the shared values are written unchanged to both paths. */
  lemma CorrectedStatusAlwaysSaves(s: Shipment, status: string, location: string, description: string, now: int)
    requires Saveable(s) && ShippingStatus(status)
    ensures var t := UpdateStatusCorrected(s, status, location, description, now);
            SaveOutcome(t).Ok? && t.status == status &&
            (TrackingStatus(status) ==> t == UpdateStatusSpec(s, status, location, description, now))
  {
  }

  /** calculateShippingCost's placeholder formula: base 10, 2 per weight unit, no distance part. */
  function CostSpec(s: Shipment): Shipment
  {
    s.(cost := 10.0 + s.weight * 2.0)
  }

  /** The cost grows by 2 per weight unit from 10, so it can be saved for any weight from -5 up. */
  lemma CostLinearInWeight(s: Shipment, t: Shipment)
    requires t.weight == s.weight + 1.0
    ensures CostSpec(t).cost == CostSpec(s).cost + 2.0
    ensures CostSpec(s).cost >= 0.0 <==> s.weight >= -5.0
    ensures s.weight >= 0.0 ==> CostSpec(s).cost >= 10.0
  {
  }

  /** `${carrier.toUpperCase()}-${timestamp}-${random}`. */
  function TrackingNumber(carrier: string, now: nat, random: string): (n: string)
    ensures |n| > |carrier| + 1 && n[..|carrier|] == Upper(carrier) && n[|carrier|] == '-'
  {
    var tail := "-" + LastChars(NatToString(now), 6) + "-" + Upper(random);
    assert tail[0] == '-';
    Upper(carrier) + tail
  }

  function LabelSpec(s: Shipment, now: nat, random: string): Result<Shipment>
  {
    if Truthy(s.trackingNumber) then Fail(Thrown(MSG_LABEL_EXISTS))
    else Ok(s.(trackingNumber := Some(TrackingNumber(s.carrier, now, random)),
               trackingStatus := "label_created", status := "processing"))
  }

  /**
   * generateShippingLabel refuses a shipment that has a number; otherwise the
   * number starts with the upper-cased carrier and a dash, and the shipment is
   * 'processing' with a 'label_created' tracking status.
   */
  lemma LabelEffect(s: Shipment, now: nat, random: string)
    ensures var r := LabelSpec(s, now, random);
            (r.Fail? <==> Truthy(s.trackingNumber)) &&
            (r.Fail? ==> r.error == Thrown(MSG_LABEL_EXISTS)) &&
            (r.Ok? ==> var n := r.value.trackingNumber.value;
                       r.value.trackingNumber.Some? && |n| > |s.carrier| + 1 &&
                       n[..|s.carrier|] == Upper(s.carrier) && n[|s.carrier|] == '-' &&
                       r.value.status == "processing" && r.value.trackingStatus == "label_created" &&
                       r.value.(trackingNumber := s.trackingNumber, status := s.status, trackingStatus := s.trackingStatus) == s)
  {
  }

  /** A label is generated at most once: the second call always fails. */
  lemma LabelOnlyOnce(s: Shipment, now: nat, random: string, later: nat, random2: string)
    requires LabelSpec(s, now, random).Ok?
    ensures LabelSpec(LabelSpec(s, now, random).value, later, random2) == Fail(Thrown(MSG_LABEL_EXISTS))
  {
  }

  /** A fresh label always passes the save's validation when the cost does. */
  lemma LabelSaves(s: Shipment, now: nat, random: string)
    requires LabelSpec(s, now, random).Ok? && s.cost >= 0.0
    ensures SaveOutcome(LabelSpec(s, now, random).value).Ok?
  {
  }

  /** The shipping document. */
  class ShippingDoc {
    const carrier: string
    const weight: real
    const createdAt: int
    var cost: real
    var trackingNumber: Option<string>
    var trackingStatus: string
    var history: seq<Event>
    var actualDelivery: Option<int>
    var status: string

    function State(): Shipment
      reads this
    {
      Shipment(carrier, weight, cost, trackingNumber, trackingStatus, history, actualDelivery, status, createdAt)
    }

    /** createShipping: the new document, its cost calculated before the save. */
    constructor (s: Shipment)
      ensures State() == CostSpec(s)
    {
      carrier, weight, createdAt := s.carrier, s.weight, s.createdAt;
      cost, trackingNumber, trackingStatus := s.cost, s.trackingNumber, s.trackingStatus;
      history, actualDelivery, status := s.history, s.actualDelivery, s.status;
      new;
      var _ := CalculateShippingCost();
    }

    /**
     * updateStatus with the tracking path given the value of its own enum
     * (UpdateStatusSpec is the update as written); a status outside the
     * top-level enum is still written to both paths, and the save refuses it.
     */
    method UpdateStatus(status: string, location: string, description: string, now: int) returns (r: Result<Shipment>)
      modifies this
      ensures ShippingStatus(status) ==> State() == UpdateStatusCorrected(old(State()), status, location, description, now)
      ensures !ShippingStatus(status) ==> State() == UpdateStatusSpec(old(State()), status, location, description, now)
      ensures r == SaveOutcome(State())
    {
      this.status := status;
      trackingStatus := if ShippingStatus(status) then TrackingFor(status) else status;
      history := history + [Event(status, location, description, now)];
      if status == "delivered" {
        actualDelivery := Some(now);
      }
      r := SaveOutcome(State());
    }

    method CalculateShippingCost() returns (r: Result<Shipment>)
      modifies this
      ensures State() == CostSpec(old(State()))
      ensures r == SaveOutcome(State())
    {
      cost := 10.0 + weight * 2.0 + 0.0;
      r := SaveOutcome(State());
    }

    method GenerateShippingLabel(now: nat, random: string) returns (r: Result<Shipment>)
      modifies this
      ensures LabelSpec(old(State()), now, random).Fail? ==> State() == old(State()) && r == LabelSpec(old(State()), now, random)
      ensures LabelSpec(old(State()), now, random).Ok? ==>
                State() == LabelSpec(old(State()), now, random).value && r == SaveOutcome(State())
    {
      if Truthy(trackingNumber) {
        return Fail(Thrown(MSG_LABEL_EXISTS));
      }
      trackingNumber := Some(TrackingNumber(carrier, now, random));
      trackingStatus := "label_created";
      status := "processing";
      r := SaveOutcome(State());
    }
  }

  /** getByTrackingNumber: the first shipment with that number. */
  function ByTrackingNumber(ships: seq<Shipment>, number: string): (r: Option<Shipment>)
    ensures r.Some? <==> exists k :: 0 <= k < |ships| && ships[k].trackingNumber == Some(number)
    ensures r.Some? ==> r.value in ships && r.value.trackingNumber == Some(number)
  {
    var i := FindIndex(ships, (s: Shipment) => s.trackingNumber == Some(number));
    if i < 0 then None else Some(ships[i])
  }

  predicate IsActive(s: Shipment)
  {
    s.status == "pending" || s.status == "processing" || s.status == "shipped"
  }

  predicate NewerFirst(a: Shipment, b: Shipment)
  {
    a.createdAt >= b.createdAt
  }

  /** getActiveShipments: pending, processing and shipped shipments, newest first. */
  function ActiveShipments(ships: seq<Shipment>): seq<Shipment>
  {
    assert TotalPreorder(NewerFirst);
    SortBy(Filter(ships, IsActive), NewerFirst)
  }

  /** The active list holds exactly the active shipments, each as often as stored, newest first. */
  lemma ActiveShipmentsExact(ships: seq<Shipment>)
    ensures var r := ActiveShipments(ships);
            (forall s :: s in r <==> s in ships && IsActive(s)) &&
            (forall s :: multiset(r)[s] == if IsActive(s) then multiset(ships)[s] else 0) &&
            (forall i, j :: 0 <= i < j < |r| ==> r[i].createdAt >= r[j].createdAt)
  {
    var r := ActiveShipments(ships);
    var f := Filter(ships, IsActive);
    FilterMultiset(ships, IsActive);
    forall s ensures s in r <==> s in ships && IsActive(s) {
      assert s in r <==> s in multiset(r);
      assert s in ships <==> s in multiset(ships);
    }
  }

  /** A label takes a pending shipment onto the active list, and a delivery takes it off. */
  lemma LabelKeepsActiveDeliveryEnds(s: Shipment, now: nat, random: string, location: string, description: string)
    requires LabelSpec(s, now, random).Ok?
    ensures IsActive(LabelSpec(s, now, random).value)
    ensures !IsActive(UpdateStatusSpec(s, "delivered", location, description, now))
  {
  }
}
