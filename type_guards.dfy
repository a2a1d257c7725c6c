/**
 * The runtime type guards for the application's models: each accepts an object
 * that has a fixed set of keys, whatever their values.
 */
module TypeGuards {

  /** A JavaScript value as the guards see it. */
  datatype JsValue =
    | JsNull
    | JsUndefined
    | JsBool(b: bool)
    | JsNumber(n: int)
    | JsString(s: string)
    | JsArray(items: seq<JsValue>)
    | JsObject(fields: map<string, JsValue>)

  /** `typeof v === 'object'`: objects, arrays and `null`. */
  predicate TypeofObject(v: JsValue) {
    v.JsNull? || v.JsArray? || v.JsObject?
  }

  predicate IsDigit(c: char) {
    '0' <= c <= '9'
  }

  /**
   * `key in v` for a value that is an object: an own key of a plain object; for an
   * array, `length` or an index (a string of digits).
   */
  predicate HasKey(v: JsValue, key: string)
    requires v.JsArray? || v.JsObject?
  {
    match v
    case JsObject(fields) => key in fields
    case JsArray(items) => key == "length" || (key != "" && forall i :: 0 <= i < |key| ==> IsDigit(key[i]))
  }

  /** `isProject`. */
  predicate IsProject(data: JsValue) {
    data != JsNull && TypeofObject(data)
    && HasKey(data, "id") && HasKey(data, "name") && HasKey(data, "status")
  }

  /** `isInvestor`. */
  predicate IsInvestor(data: JsValue) {
    data != JsNull && TypeofObject(data)
    && HasKey(data, "id") && HasKey(data, "name") && HasKey(data, "email") && HasKey(data, "type")
  }

  /** `isSubscription`. */
  predicate IsSubscription(data: JsValue) {
    data != JsNull && TypeofObject(data)
    && HasKey(data, "id") && HasKey(data, "investorId") && HasKey(data, "projectId") && HasKey(data, "fiatAmount")
  }

  /** `isRedemptionRequest`. */
  predicate IsRedemptionRequest(data: JsValue) {
    data != JsNull && TypeofObject(data)
    && HasKey(data, "id") && HasKey(data, "requestDate") && HasKey(data, "tokenAmount") && HasKey(data, "status")
  }

  /** `isUser`. */
  predicate IsUser(data: JsValue) {
    data != JsNull && TypeofObject(data)
    && HasKey(data, "id") && HasKey(data, "name") && HasKey(data, "email") && HasKey(data, "role")
  }

  /** The five guards, to state their shared properties once. */
  datatype Guard = ProjectGuard | InvestorGuard | SubscriptionGuard | RedemptionRequestGuard | UserGuard {
    /** The keys the guard tests for. */
    function RequiredKeys(): set<string> {
      match this
      case ProjectGuard => {"id", "name", "status"}
      case InvestorGuard => {"id", "name", "email", "type"}
      case SubscriptionGuard => {"id", "investorId", "projectId", "fiatAmount"}
      case RedemptionRequestGuard => {"id", "requestDate", "tokenAmount", "status"}
      case UserGuard => {"id", "name", "email", "role"}
    }
  }

  /** Runs guard `g` on `data`. */
  predicate Accepts(g: Guard, data: JsValue) {
    match g
    case ProjectGuard => IsProject(data)
    case InvestorGuard => IsInvestor(data)
    case SubscriptionGuard => IsSubscription(data)
    case RedemptionRequestGuard => IsRedemptionRequest(data)
    case UserGuard => IsUser(data)
  }

  /** A guard holds exactly when `data` is a plain object whose keys include the guard's keys. */
  lemma AcceptsIffKeys(g: Guard, data: JsValue)
    ensures Accepts(g, data) <==> data.JsObject? && g.RequiredKeys() <= data.fields.Keys
  {
    if data.JsArray? {
      assert !HasKey(data, "id") by { assert "id"[0] == 'i' && !IsDigit("id"[0]); }
    }
  }

  /** Every guard rejects `null` and every value that is not an object. */
  lemma RejectsNonObjects(g: Guard, data: JsValue)
    requires data.JsNull? || !TypeofObject(data)
    ensures !Accepts(g, data)
  {
  }

  /** Only the keys matter: two objects with the same keys are accepted alike, whatever their values. */
  lemma KeysOnly(g: Guard, a: map<string, JsValue>, b: map<string, JsValue>)
    requires a.Keys == b.Keys
    ensures Accepts(g, JsObject(a)) <==> Accepts(g, JsObject(b))
  {
    AcceptsIffKeys(g, JsObject(a));
    AcceptsIffKeys(g, JsObject(b));
  }

  /** Adding keys never turns an accepted object into a rejected one. */
  lemma Monotone(g: Guard, a: map<string, JsValue>, b: map<string, JsValue>)
    requires a.Keys <= b.Keys
    ensures Accepts(g, JsObject(a)) ==> Accepts(g, JsObject(b))
  {
    AcceptsIffKeys(g, JsObject(a));
    AcceptsIffKeys(g, JsObject(b));
  }
}
