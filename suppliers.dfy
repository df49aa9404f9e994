/*
 * models/supplier/supplier.model.js: the code generated for a new supplier,
 * the statistics / rating pre-save hook, the credit virtuals, updateRating
 * with its audit entry, assessRisk and checkDocumentExpiry. The clock is the
 * parameter `now` (ms) and the random suffix of a code is the parameter
 * `random`. Every method that ends in save() reports that save's outcome
 * through Saveable; the document keeps its assigned fields either way.
 */
module Suppliers {
  import opened Common

  const MSG_INVALID_RATING_TYPE: string := "Invalid rating type"
  const MSG_RATING_RANGE: string := "Rating must be between 1 and 5"
  const MSG_VALIDATION: string := "Supplier validation failed"
  const MSG_CODE_REQUIRED: string := "Supplier validation failed: code: Path `code` is required."
  /** checkDocumentExpiry reads `this.certifications`, which the schema keeps under capabilities. */
  const MSG_NO_CERTIFICATIONS: string := "Cannot read properties of undefined (reading 'forEach')"

  const REVIEW_INTERVAL_MS: int := 90 * DAY_MS
  const EXPIRY_WINDOW_MS: int := 30 * DAY_MS

  // ---- The generated code ----

  /** type.toUpperCase().substring(0, 3). */
  function CodePrefix(kind: string): (p: string)
    ensures |p| == if |kind| < 3 then |kind| else 3
    ensures p == Upper(kind)[..|p|]
  {
    var u := Upper(kind);
    if |u| < 3 then u else u[..3]
  }

  /** `${prefix}-${last four digits of now}-${random}`. */
  function GeneratedCode(kind: string, now: nat, random: string): (code: string)
    ensures var n := |CodePrefix(kind)|;
            |code| > n + 1 && code[..n] == CodePrefix(kind) && code[n] == '-'
  {
    var tail := "-" + LastChars(NatToString(now), 4) + "-" + Upper(random);
    assert tail[0] == '-';
    CodePrefix(kind) + tail
  }

  /** The code hook: a new supplier without a code gets a generated one; any other keeps its code. */
  function CodeHook(isNew: bool, code: Option<string>, kind: string, now: nat, random: string): (r: Option<string>)
    ensures isNew && !Truthy(code) ==> r == Some(GeneratedCode(kind, now, random))
    ensures !(isNew && !Truthy(code)) ==> r == code
  {
    if isNew && !Truthy(code) then Some(GeneratedCode(kind, now, random)) else code
  }

  /** A generated code of a supplier type spelled with three or more letters starts with three upper-cased letters and a dash. */
  lemma GeneratedCodeShape(kind: string, now: nat, random: string)
    requires |kind| >= 3
    ensures var code := GeneratedCode(kind, now, random);
            code[..3] == Upper(kind[..3]) && code[3] == '-'
  {
    assert Upper(kind[..3]) == Upper(kind)[..3];
  }

  // ---- Ratings and statistics ----

  datatype Ratings = Ratings(overall: real, quality: real, delivery: real, service: real, pricing: real)

  predicate IsRatingType(t: string)
  {
    t == "quality" || t == "delivery" || t == "service" || t == "pricing"
  }

  function RatingOf(r: Ratings, t: string): real
    requires IsRatingType(t)
  {
    if t == "quality" then r.quality
    else if t == "delivery" then r.delivery
    else if t == "service" then r.service
    else r.pricing
  }

  /** performance.rating[t] = score. */
  function SetRating(r: Ratings, t: string, score: real): (s: Ratings)
    requires IsRatingType(t)
    ensures RatingOf(s, t) == score && s.overall == r.overall
    ensures forall u :: IsRatingType(u) && u != t ==> RatingOf(s, u) == RatingOf(r, u)
  {
    if t == "quality" then r.(quality := score)
    else if t == "delivery" then r.(delivery := score)
    else if t == "service" then r.(service := score)
    else r.(pricing := score)
  }

  /** The four sub-ratings, in the hook's field order. */
  function SubRatings(r: Ratings): seq<real>
  {
    [r.quality, r.delivery, r.service, r.pricing]
  }

  function Sum(xs: seq<real>): real
  {
    if xs == [] then 0.0 else Sum(xs[..|xs| - 1]) + xs[|xs| - 1]
  }

  /** Every element lies in [lo, hi]: then so does the sum, scaled by the length. */
  lemma {:induction false} SumBounds(xs: seq<real>, lo: real, hi: real)
    requires forall k :: 0 <= k < |xs| ==> lo <= xs[k] <= hi
    ensures |xs| as real * lo <= Sum(xs) <= |xs| as real * hi
  {
    if xs != [] {
      SumBounds(xs[..|xs| - 1], lo, hi);
    }
  }

  /** Math.round(x * 10) / 10, with Math.round rounding halves up. */
  function Round1(x: real): real
  {
    (x * 10.0 + 0.5).Floor as real / 10.0
  }

  /** Rounding to one decimal moves a value by at most 0.05 and keeps it within whole-number bounds. */
  lemma Round1Bounds(x: real, lo: int, hi: int)
    requires lo as real <= x <= hi as real
    ensures x - 0.05 < Round1(x) <= x + 0.05
    ensures lo as real <= Round1(x) <= hi as real
  {
    var f := (x * 10.0 + 0.5).Floor;
    assert f as real <= x * 10.0 + 0.5 < f as real + 1.0;
    assert f > 10 * lo - 1;
    assert f < 10 * hi + 1;
  }

  /** The sub-ratings the hook averages: those above 0. */
  function PositiveRatings(r: Ratings): seq<real>
  {
    Filter(SubRatings(r), (x: real) => x > 0.0)
  }

  /** The fields of performance.statistics the hook reads and writes. */
  datatype Statistics = Statistics(totalOrders: real, totalValue: real, averageOrderValue: real)

  /**
   * The statistics hook when performance.statistics was modified: the
   * average order value when there are orders, and the overall rating as
   * the rounded mean of the positive sub-ratings when there is one.
   */
  function StatsHookSpec(stats: Statistics, r: Ratings): (Statistics, Ratings)
  {
    var stats := if stats.totalOrders > 0.0 then stats.(averageOrderValue := stats.totalValue / stats.totalOrders) else stats;
    var pos := PositiveRatings(r);
    var r := if |pos| > 0 then r.(overall := Round1(Sum(pos) / |pos| as real)) else r;
    (stats, r)
  }

  /**
   * After the hook the average times the order count is the total value,
   * the sub-ratings are untouched, and with every sub-rating in [1, 5] the
   * overall rating is within 0.05 of their mean and itself in [1, 5].
   */
  lemma StatsHookEffect(stats: Statistics, r: Ratings)
    ensures var (s2, r2) := StatsHookSpec(stats, r);
            s2.totalOrders == stats.totalOrders && s2.totalValue == stats.totalValue &&
            (stats.totalOrders > 0.0 ==> s2.averageOrderValue * stats.totalOrders == stats.totalValue) &&
            (stats.totalOrders <= 0.0 ==> s2.averageOrderValue == stats.averageOrderValue) &&
            SubRatings(r2) == SubRatings(r) &&
            (PositiveRatings(r) == [] ==> r2.overall == r.overall)
    ensures var (_, r2) := StatsHookSpec(stats, r);
            (forall k :: 0 <= k < 4 ==> 1.0 <= SubRatings(r)[k] <= 5.0) ==>
              var mean := Sum(SubRatings(r)) / 4.0;
              mean - 0.05 < r2.overall <= mean + 0.05 && 1.0 <= r2.overall <= 5.0
  {
    var subs := SubRatings(r);
    if forall k :: 0 <= k < 4 ==> 1.0 <= subs[k] <= 5.0 {
      FilterAllKept(subs, (x: real) => x > 0.0);
      SumBounds(subs, 1.0, 5.0);
      Round1Bounds(Sum(subs) / 4.0, 1, 5);
    }
  }

  // ---- Credit virtuals ----

  /** creditUtilization: 0 for a zero limit, otherwise the balance as a percentage of the limit. */
  function CreditUtilization(creditLimit: real, currentBalance: real): real
  {
    if creditLimit == 0.0 then 0.0 else currentBalance / creditLimit * 100.0
  }

  /** isOverdue. */
  predicate IsOverdue(currentBalance: real)
  {
    currentBalance < 0.0
  }

  /**
   * With a positive limit the utilisation is the balance's share of it:
   * 100 exactly at the limit, between 0 and 100 for a balance within it,
   * and negative exactly when the supplier is overdue.
   */
  lemma CreditUtilizationMeaning(creditLimit: real, currentBalance: real)
    ensures creditLimit == 0.0 ==> CreditUtilization(creditLimit, currentBalance) == 0.0
    ensures creditLimit > 0.0 ==>
              var u := CreditUtilization(creditLimit, currentBalance);
              u * creditLimit == currentBalance * 100.0 &&
              (u == 100.0 <==> currentBalance == creditLimit) &&
              (0.0 <= currentBalance <= creditLimit ==> 0.0 <= u <= 100.0) &&
              (u < 0.0 <==> IsOverdue(currentBalance))
  {
    if creditLimit > 0.0 {
      var u := CreditUtilization(creditLimit, currentBalance);
      assert u == currentBalance * (100.0 / creditLimit);
      if 0.0 <= currentBalance <= creditLimit {
        assert currentBalance * (100.0 / creditLimit) <= creditLimit * (100.0 / creditLimit);
      }
    }
  }

  // ---- Risk ----

  datatype Impact = Low | Medium | High
  datatype RiskFactor = RiskFactor(factor: string, impact: Option<Impact>)
  datatype RiskLevel = RiskLow | RiskMedium | RiskHigh | Critical

  /** The switch of assessRisk: high 3, medium 2, low 1, and nothing for a factor without an impact. */
  function ImpactScore(f: RiskFactor): (n: nat)
    ensures n <= 3
    ensures n == 0 <==> f.impact.None?
  {
    match f.impact
    case None => 0
    case Some(Low) => 1
    case Some(Medium) => 2
    case Some(High) => 3
  }

  function RiskScore(factors: seq<RiskFactor>): nat
  {
    if factors == [] then 0 else RiskScore(factors[..|factors| - 1]) + ImpactScore(factors[|factors| - 1])
  }

  /** The score is at most 3 per factor and at least 1 per factor with an impact. */
  lemma {:induction false} RiskScoreBounds(factors: seq<RiskFactor>)
    ensures Count(factors, (f: RiskFactor) => f.impact.Some?) <= RiskScore(factors) <= 3 * |factors|
  {
    if factors != [] {
      RiskScoreBounds(factors[..|factors| - 1]);
    }
  }

  function LevelFor(score: int): RiskLevel
  {
    if score <= 3 then RiskLow
    else if score <= 6 then RiskMedium
    else if score <= 9 then RiskHigh
    else Critical
  }

  function LevelRank(l: RiskLevel): (n: nat)
    ensures n < 4
  {
    match l
    case RiskLow => 0
    case RiskMedium => 1
    case RiskHigh => 2
    case Critical => 3
  }

  /** A higher score never gives a lower level, and 'critical' needs a score above 9. */
  lemma LevelMonotone(a: int, b: int)
    requires a <= b
    ensures LevelRank(LevelFor(a)) <= LevelRank(LevelFor(b))
    ensures LevelFor(b) == Critical <==> b > 9
  {
  }

  /** Three factors or fewer can never be critical: each adds at most 3. */
  lemma FewFactorsNotCritical(factors: seq<RiskFactor>)
    requires |factors| <= 3
    ensures LevelFor(RiskScore(factors)) != Critical
  {
    RiskScoreBounds(factors);
  }

  // ---- Documents ----

  datatype Document = Document(name: string, kind: string, expiryDate: Option<int>)
  datatype Certification = Certification(name: string, expiryDate: Option<int>)
  datatype Expiring = Expiring(name: string, kind: string, expiryDate: int, daysUntilExpiry: int)

  /** Math.ceil(ms / one day) on a whole number of milliseconds. */
  function CeilDays(ms: int): (d: int)
    ensures (d - 1) * DAY_MS < ms <= d * DAY_MS
  {
    -((-ms) / DAY_MS)
  }

  predicate ExpiresSoon(expiryDate: Option<int>, now: int)
  {
    expiryDate.Some? && expiryDate.value <= now + EXPIRY_WINDOW_MS
  }

  function ExpiringEntry(name: string, kind: string, expiryDate: int, now: int): Expiring
  {
    Expiring(name, kind, expiryDate, CeilDays(expiryDate - now))
  }

  /** The documents part of checkDocumentExpiry, in array order. */
  function ExpiringDocuments(docs: seq<Document>, now: int): (r: seq<Expiring>)
    ensures |r| == Count(docs, (d: Document) => ExpiresSoon(d.expiryDate, now))
  {
    if docs == [] then []
    else
      var d := docs[|docs| - 1];
      ExpiringDocuments(docs[..|docs| - 1], now) +
        (if ExpiresSoon(d.expiryDate, now) then [ExpiringEntry(d.name, d.kind, d.expiryDate.value, now)] else [])
  }

  /** The certifications part, each reported with type 'certification'. */
  function ExpiringCertifications(certs: seq<Certification>, now: int): (r: seq<Expiring>)
    ensures |r| == Count(certs, (c: Certification) => ExpiresSoon(c.expiryDate, now))
  {
    if certs == [] then []
    else
      var c := certs[|certs| - 1];
      ExpiringCertifications(certs[..|certs| - 1], now) +
        (if ExpiresSoon(c.expiryDate, now) then [ExpiringEntry(c.name, "certification", c.expiryDate.value, now)] else [])
  }

  /** Every reported document expires within the window and at most 30 days ahead, counted in started days. */
  lemma {:induction false} ExpiringDocumentsWithinWindow(docs: seq<Document>, now: int)
    ensures forall e :: e in ExpiringDocuments(docs, now) ==>
              e.expiryDate <= now + EXPIRY_WINDOW_MS && e.daysUntilExpiry <= 30 &&
              exists d :: d in docs && d.name == e.name && d.kind == e.kind && d.expiryDate == Some(e.expiryDate)
  {
    if docs != [] {
      var n := |docs| - 1;
      ExpiringDocumentsWithinWindow(docs[..n], now);
      forall e | e in ExpiringDocuments(docs, now)
        ensures e.expiryDate <= now + EXPIRY_WINDOW_MS && e.daysUntilExpiry <= 30 &&
                exists d :: d in docs && d.name == e.name && d.kind == e.kind && d.expiryDate == Some(e.expiryDate)
      {
        if e !in ExpiringDocuments(docs[..n], now) {
          assert docs[n] in docs;
        } else {
          var d :| d in docs[..n] && d.name == e.name && d.kind == e.kind && d.expiryDate == Some(e.expiryDate);
          assert d in docs;
        }
      }
    }
  }

  /** A document that expires in the window is reported. */
  lemma {:induction false} ExpiringDocumentsComplete(docs: seq<Document>, now: int, k: int)
    requires 0 <= k < |docs| && ExpiresSoon(docs[k].expiryDate, now)
    ensures ExpiringEntry(docs[k].name, docs[k].kind, docs[k].expiryDate.value, now) in ExpiringDocuments(docs, now)
  {
    if k < |docs| - 1 {
      ExpiringDocumentsComplete(docs[..|docs| - 1], now, k);
    }
  }

  // ---- The document ----

  datatype AuditNote = Given(text: string) | UpdatedTo(ratingType: string, score: real)

  /** An auditLog entry of updateRating: action 'updated', the field changed and the note. */
  datatype AuditEntry = AuditEntry(action: string, performedBy: Option<string>, field: string, score: real, notes: AuditNote)

  /** The fields of a supplier the methods read and write. */
  datatype Supplier = Supplier(
    kind: string,
    code: Option<string>,
    ratings: Ratings,
    stats: Statistics,
    auditLog: seq<AuditEntry>,
    riskFactors: seq<RiskFactor>,
    riskLevel: RiskLevel,
    lastAssessment: Option<int>,
    nextReview: Option<int>,
    documents: seq<Document>,
    certifications: seq<Certification>,
    creditLimit: real,
    currentBalance: real)

  /** What save() validates of the modelled fields: ratings in [1, 5] and a performer on every audit entry. */
  predicate Saveable(s: Supplier)
  {
    (forall k :: 0 <= k < 4 ==> 1.0 <= SubRatings(s.ratings)[k] <= 5.0) &&
    1.0 <= s.ratings.overall <= 5.0 &&
    forall k :: 0 <= k < |s.auditLog| ==> s.auditLog[k].performedBy.Some?
  }

  function SaveOutcome(s: Supplier): (r: Result<Supplier>)
    ensures r.Ok? <==> Saveable(s)
    ensures r.Ok? ==> r.value == s
    ensures r.Fail? ==> r.error == Thrown(MSG_VALIDATION)
  {
    if Saveable(s) then Ok(s) else Fail(Thrown(MSG_VALIDATION))
  }

  /**
   * The first save of a new supplier as written: schema validation runs
   * before the pre-save hooks, so a missing or empty code is refused as
   * required before the code hook could fill it in.
   */
  function FirstSaveAsWritten(s: Supplier, now: nat, random: string): Result<Supplier>
  {
    if !Truthy(s.code) then Fail(Thrown(MSG_CODE_REQUIRED))
    else SaveOutcome(s.(code := CodeHook(true, s.code, s.kind, now, random)))
  }

  /**
   * As written, the code hook never generates a code: a new supplier without
   * one is refused, and one with a code is saved with that code.
   */
  lemma CodeHookNeverGeneratesAsWritten(s: Supplier, now: nat, random: string)
    ensures !Truthy(s.code) ==> FirstSaveAsWritten(s, now, random) == Fail(Thrown(MSG_CODE_REQUIRED))
    ensures FirstSaveAsWritten(s, now, random).Ok? ==> FirstSaveAsWritten(s, now, random).value == s
  {
  }

  /** The first save with the code hook run before validation, as the hook evidently intends. */
  function FirstSaveCorrected(s: Supplier, now: nat, random: string): Result<Supplier>
  {
    SaveOutcome(s.(code := CodeHook(true, s.code, s.kind, now, random)))
  }

  /**
   * Corrected, whether the first save succeeds does not depend on the code;
   * a saved supplier always has one, the generated one when none was given.
   */
  lemma CorrectedFirstSaveHasCode(s: Supplier, now: nat, random: string)
    ensures FirstSaveCorrected(s, now, random).Ok? <==> Saveable(s)
    ensures var r := FirstSaveCorrected(s, now, random);
            r.Ok? ==> Truthy(r.value.code) &&
                      r.value.code == (if Truthy(s.code) then s.code else Some(GeneratedCode(s.kind, now, random))) &&
                      r.value.(code := s.code) == s
  {
    var t := s.(code := CodeHook(true, s.code, s.kind, now, random));
    assert SubRatings(t.ratings) == SubRatings(s.ratings);
    if !Truthy(s.code) {
      assert |GeneratedCode(s.kind, now, random)| > 0;
    }
  }

  /** updateRating with the audit entry's performer given; the note defaults to "Updated <type> rating to <score>". */
  function UpdateRatingSpec(s: Supplier, t: string, score: real, notes: Option<string>, performedBy: Option<string>)
    : Result<Supplier>
  {
    if !IsRatingType(t) then Fail(Thrown(MSG_INVALID_RATING_TYPE))
    else if score < 1.0 || score > 5.0 then Fail(Thrown(MSG_RATING_RANGE))
    else
      var note := if Truthy(notes) then Given(notes.value) else UpdatedTo(t, score);
      Ok(s.(ratings := SetRating(s.ratings, t, score),
            auditLog := s.auditLog + [AuditEntry("updated", performedBy, "performance.rating." + t, score, note)]))
  }

  /** updateRating as written: the audit entry's performedBy is null. */
  function UpdateRatingAsWritten(s: Supplier, t: string, score: real, notes: Option<string>): Result<Supplier>
  {
    var r := UpdateRatingSpec(s, t, score, notes, None);
    if r.Fail? then r else SaveOutcome(r.value)
  }

  /**
   * As written, no rating update is ever saved: the audit entry it pushes
   * names no performer, which the schema requires, so the save fails
   * whenever the guards pass.
   */
  lemma RatingUpdateNeverSavesAsWritten(s: Supplier, t: string, score: real, notes: Option<string>)
    ensures UpdateRatingAsWritten(s, t, score, notes).Fail?
    ensures IsRatingType(t) && 1.0 <= score <= 5.0 ==> UpdateRatingAsWritten(s, t, score, notes) == Fail(Thrown(MSG_VALIDATION))
  {
    var r := UpdateRatingSpec(s, t, score, notes, None);
    if r.Ok? {
      assert r.value.auditLog[|s.auditLog|].performedBy.None?;
    }
  }

  /** updateRating with the caller's id as the performer. */
  function UpdateRatingCorrected(s: Supplier, t: string, score: real, notes: Option<string>, performedBy: string)
    : Result<Supplier>
  {
    var r := UpdateRatingSpec(s, t, score, notes, Some(performedBy));
    if r.Fail? then r else SaveOutcome(r.value)
  }

  /**
   * Corrected: an unknown type and a score outside [1, 5] are refused with
   * their messages; otherwise exactly that sub-rating becomes the score,
   * one audit entry is appended, and a saveable supplier stays saveable.
   */
  lemma UpdateRatingCorrectedEffect(s: Supplier, t: string, score: real, notes: Option<string>, performedBy: string)
    requires Saveable(s)
    ensures var r := UpdateRatingCorrected(s, t, score, notes, performedBy);
            (!IsRatingType(t) ==> r == Fail(Thrown(MSG_INVALID_RATING_TYPE))) &&
            (IsRatingType(t) && (score < 1.0 || score > 5.0) ==> r == Fail(Thrown(MSG_RATING_RANGE))) &&
            (IsRatingType(t) && 1.0 <= score <= 5.0 ==>
               r.Ok? && RatingOf(r.value.ratings, t) == score &&
               (forall u :: IsRatingType(u) && u != t ==> RatingOf(r.value.ratings, u) == RatingOf(s.ratings, u)) &&
               r.value.ratings.overall == s.ratings.overall &&
               |r.value.auditLog| == |s.auditLog| + 1 && r.value.auditLog[..|s.auditLog|] == s.auditLog &&
               r.value.auditLog[|s.auditLog|].performedBy == Some(performedBy))
  {
    if IsRatingType(t) && 1.0 <= score <= 5.0 {
      var v := UpdateRatingSpec(s, t, score, notes, Some(performedBy)).value;
      forall k | 0 <= k < 4 ensures 1.0 <= SubRatings(v.ratings)[k] <= 5.0 {
        assert SubRatings(s.ratings)[k] == RatingOf(s.ratings, ["quality", "delivery", "service", "pricing"][k]);
        assert SubRatings(v.ratings)[k] == RatingOf(v.ratings, ["quality", "delivery", "service", "pricing"][k]);
      }
    }
  }

  function AssessRiskSpec(s: Supplier, now: int): Supplier
  {
    s.(riskLevel := LevelFor(RiskScore(s.riskFactors)), lastAssessment := Some(now),
       nextReview := Some(now + REVIEW_INTERVAL_MS))
  }

  /**
   * assessRisk reviews the supplier again 90 days after the assessment, sets a
   * level no lower than any smaller score would give and 'critical' only above
   * 9, changes nothing but the risk fields, and so never changes whether the
   * supplier can be saved.
   */
  lemma AssessRiskEffect(s: Supplier, now: int, smaller: int)
    requires smaller <= RiskScore(s.riskFactors)
    ensures var t := AssessRiskSpec(s, now);
            t.lastAssessment == Some(now) && t.nextReview == Some(now + 90 * 24 * 60 * 60 * 1000) &&
            LevelRank(LevelFor(smaller)) <= LevelRank(t.riskLevel) &&
            (t.riskLevel == Critical <==> RiskScore(s.riskFactors) > 9) &&
            t.(riskLevel := s.riskLevel, lastAssessment := s.lastAssessment, nextReview := s.nextReview) == s &&
            (SaveOutcome(t).Ok? <==> SaveOutcome(s).Ok?)
  {
    LevelMonotone(smaller, RiskScore(s.riskFactors));
  }

  /** The supplier document. */
  class SupplierDoc {
    const kind: string
    var code: Option<string>
    var ratings: Ratings
    var stats: Statistics
    var auditLog: seq<AuditEntry>
    const riskFactors: seq<RiskFactor>
    var riskLevel: RiskLevel
    var lastAssessment: Option<int>
    var nextReview: Option<int>
    const documents: seq<Document>
    const certifications: seq<Certification>
    const creditLimit: real
    const currentBalance: real

    function State(): Supplier
      reads this
    {
      Supplier(kind, code, ratings, stats, auditLog, riskFactors, riskLevel, lastAssessment, nextReview,
               documents, certifications, creditLimit, currentBalance)
    }

    /** A new supplier as its first save leaves it, the code hook run before validation (see FirstSaveAsWritten). */
    constructor (s: Supplier, now: nat, random: string)
      ensures State() == s.(code := CodeHook(true, s.code, s.kind, now, random))
    {
      kind, ratings, stats, auditLog := s.kind, s.ratings, s.stats, s.auditLog;
      riskFactors, riskLevel, lastAssessment, nextReview := s.riskFactors, s.riskLevel, s.lastAssessment, s.nextReview;
      documents, certifications, creditLimit, currentBalance := s.documents, s.certifications, s.creditLimit, s.currentBalance;
      code := s.code;
      new;
      if !Truthy(code) {
        code := Some(GeneratedCode(kind, now, random));
      }
    }

    /** The statistics hook of a save that modified performance.statistics. */
    method StatisticsHook()
      modifies this
      ensures (stats, ratings) == StatsHookSpec(old(stats), old(ratings))
      ensures State().(stats := old(stats), ratings := old(ratings)) == old(State())
    {
      if stats.totalOrders > 0.0 {
        stats := stats.(averageOrderValue := stats.totalValue / stats.totalOrders);
      }
      var valid := PositiveRatings(ratings);
      if |valid| > 0 {
        ratings := ratings.(overall := Round1(Sum(valid) / |valid| as real));
      }
    }

    /** updateRating, the audit entry naming the performer. */
    method UpdateRating(t: string, score: real, notes: Option<string>, performedBy: string) returns (r: Result<Supplier>)
      modifies this
      ensures UpdateRatingSpec(old(State()), t, score, notes, Some(performedBy)).Fail? ==>
                State() == old(State()) && r == UpdateRatingSpec(old(State()), t, score, notes, Some(performedBy))
      ensures UpdateRatingSpec(old(State()), t, score, notes, Some(performedBy)).Ok? ==>
                State() == UpdateRatingSpec(old(State()), t, score, notes, Some(performedBy)).value &&
                r == UpdateRatingCorrected(old(State()), t, score, notes, performedBy)
    {
      if !IsRatingType(t) {
        return Fail(Thrown(MSG_INVALID_RATING_TYPE));
      }
      if score < 1.0 || score > 5.0 {
        return Fail(Thrown(MSG_RATING_RANGE));
      }
      ratings := SetRating(ratings, t, score);
      var note := if Truthy(notes) then Given(notes.value) else UpdatedTo(t, score);
      auditLog := auditLog + [AuditEntry("updated", Some(performedBy), "performance.rating." + t, score, note)];
      r := SaveOutcome(State());
    }

    /** assessRisk: the forEach over the factors, the level thresholds and the review dates. */
    method AssessRisk(now: int) returns (r: Result<Supplier>)
      modifies this
      ensures State() == AssessRiskSpec(old(State()), now)
      ensures r == SaveOutcome(State())
    {
      var riskScore := 0;
      var k := 0;
      while k < |riskFactors|
        invariant 0 <= k <= |riskFactors|
        invariant riskScore == RiskScore(riskFactors[..k])
      {
        assert riskFactors[..k + 1][..k] == riskFactors[..k];
        riskScore := riskScore + ImpactScore(riskFactors[k]);
        k := k + 1;
      }
      assert riskFactors[..k] == riskFactors;
      if riskScore <= 3 {
        riskLevel := RiskLow;
      } else if riskScore <= 6 {
        riskLevel := RiskMedium;
      } else if riskScore <= 9 {
        riskLevel := RiskHigh;
      } else {
        riskLevel := Critical;
      }
      lastAssessment := Some(now);
      nextReview := Some(now + REVIEW_INTERVAL_MS);
      r := SaveOutcome(State());
    }

    /** The documents loop of checkDocumentExpiry. */
    method ScanDocuments(now: int) returns (expiring: seq<Expiring>)
      ensures expiring == ExpiringDocuments(documents, now)
    {
      expiring := [];
      var k := 0;
      while k < |documents|
        invariant 0 <= k <= |documents|
        invariant expiring == ExpiringDocuments(documents[..k], now)
      {
        assert documents[..k + 1][..k] == documents[..k];
        var doc := documents[k];
        if doc.expiryDate.Some? && doc.expiryDate.value <= now + EXPIRY_WINDOW_MS {
          expiring := expiring + [ExpiringEntry(doc.name, doc.kind, doc.expiryDate.value, now)];
        }
        k := k + 1;
      }
      assert documents[..k] == documents;
    }

    /** checkDocumentExpiry as written: the documents are scanned, then the read of `this.certifications` throws. */
    method CheckDocumentExpiryAsWritten(now: int) returns (r: Result<seq<Expiring>>)
      ensures r == Fail(Thrown(MSG_NO_CERTIFICATIONS))
    {
      var expiring := ScanDocuments(now);
      r := Fail(Thrown(MSG_NO_CERTIFICATIONS));
    }

    /** checkDocumentExpiry reading capabilities.certifications: documents first, then certifications. */
    method CheckDocumentExpiry(now: int) returns (r: Result<seq<Expiring>>)
      ensures r == Ok(ExpiringDocuments(documents, now) + ExpiringCertifications(certifications, now))
    {
      var expiring := ScanDocuments(now);
      var k := 0;
      ghost var docsPart := expiring;
      while k < |certifications|
        invariant 0 <= k <= |certifications|
        invariant expiring == docsPart + ExpiringCertifications(certifications[..k], now)
      {
        assert certifications[..k + 1][..k] == certifications[..k];
        var cert := certifications[k];
        if cert.expiryDate.Some? && cert.expiryDate.value <= now + EXPIRY_WINDOW_MS {
          expiring := expiring + [ExpiringEntry(cert.name, "certification", cert.expiryDate.value, now)];
        }
        k := k + 1;
      }
      assert certifications[..k] == certifications;
      r := Ok(expiring);
    }
  }
}
