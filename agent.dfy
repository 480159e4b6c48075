/**
 * The simulated person as the two modules see it: a string-keyed attribute bag, the
 * vital signs at the current tick, the coverage history and the premium checks, plus the
 * payers' shared counters. Java runtime exceptions (a missing attribute unboxed, a value of
 * the wrong class cast) are modelled as `Err` results.
 */
module Agent {

  datatype Option<+T> = None | Some(value: T)

  /** What a module reads from the attribute bag or a vital sign can go wrong with. */
  datatype Fault =
    | MissingAttribute(key: string)   // a null attribute unboxed: NullPointerException
    | WrongType(key: string)          // an attribute of another class: ClassCastException
    | MissingVitalSign(sign: VitalSign)
    | NullPayer                       // a null payer dereferenced

  datatype Result<+T> = Ok(value: T) | Err(fault: Fault) {
    predicate IsFailure() { Err? }
    function PropagateFailure<U>(): Result<U>
      requires Err?
    {
      Err(fault)
    }
    function Extract(): T
      requires Ok?
    {
      value
    }
  }

  /** The attribute values the two modules store: Boolean, Double, Long and String. */
  datatype Value = BoolVal(b: bool) | RealVal(r: real) | TimeVal(t: int) | StrVal(s: string)

  datatype VitalSign = Weight | Height | Bmi | WeightPercentile

  /** A uniform draw of `person.rand()`, in [0, 1). */
  type Draw = r: real | 0.0 <= r < 1.0

  type Positive = n: int | n > 0 witness 1

  type PayerId = nat

  /** One entry of the coverage history: primary and secondary payer from `start` on. */
  datatype PlanRecord = PlanRecord(start: int, primary: PayerId, secondary: PayerId)

  /** The part of a person the weight-loss module reads and writes. */
  datatype Body = Body(attributes: map<string, Value>, vitals: map<VitalSign, real>)

  /** `Person.GENDER`, read by the growth-chart lookups. */
  const Gender := "gender"

  /** `(boolean) attributes.get(key)`. */
  function GetBool(a: map<string, Value>, key: string): (r: Result<bool>)
    ensures r.Ok? <==> key in a && a[key].BoolVal?
    ensures r.Ok? ==> a[key] == BoolVal(r.value)
    ensures r.Err? ==> r.fault == if key in a then WrongType(key) else MissingAttribute(key)
  {
    if key !in a then Err(MissingAttribute(key))
    else if a[key].BoolVal? then Ok(a[key].b)
    else Err(WrongType(key))
  }

  /** `(double) attributes.get(key)`. */
  function GetReal(a: map<string, Value>, key: string): (r: Result<real>)
    ensures r.Ok? <==> key in a && a[key].RealVal?
    ensures r.Ok? ==> a[key] == RealVal(r.value)
    ensures r.Err? ==> r.fault == if key in a then WrongType(key) else MissingAttribute(key)
  {
    if key !in a then Err(MissingAttribute(key))
    else if a[key].RealVal? then Ok(a[key].r)
    else Err(WrongType(key))
  }

  /** `(long) attributes.get(key)`. */
  function GetTime(a: map<string, Value>, key: string): (r: Result<int>)
    ensures r.Ok? <==> key in a && a[key].TimeVal?
    ensures r.Ok? ==> a[key] == TimeVal(r.value)
    ensures r.Err? ==> r.fault == if key in a then WrongType(key) else MissingAttribute(key)
  {
    if key !in a then Err(MissingAttribute(key))
    else if a[key].TimeVal? then Ok(a[key].t)
    else Err(WrongType(key))
  }

  /** `(String) attributes.get(GENDER)`: a null gender is passed on, not dereferenced. */
  function GetGender(a: map<string, Value>): (r: Result<Option<string>>)
    ensures r == Ok(None) <==> Gender !in a
    ensures Gender in a && a[Gender].StrVal? ==> r == Ok(Some(a[Gender].s))
    ensures r.Err? <==> Gender in a && !a[Gender].StrVal?
  {
    if Gender !in a then Ok(None)
    else if a[Gender].StrVal? then Ok(Some(a[Gender].s))
    else Err(WrongType(Gender))
  }

  /** `getVitalSign(sign, time)` unboxed to a double. */
  function GetVital(v: map<VitalSign, real>, sign: VitalSign): (r: Result<real>)
    ensures r.Ok? <==> sign in v
    ensures r.Ok? ==> r.value == v[sign]
    ensures r.Err? ==> r.fault == MissingVitalSign(sign)
  {
    if sign in v then Ok(v[sign]) else Err(MissingVitalSign(sign))
  }

  /** `Person.rand(low, high)`: a uniform value between the bounds. */
  function RandRange(low: real, high: real, u: Draw): (x: real)
    ensures low <= high ==> low <= x <= high
  {
    low + Scale(high - low, u)
  }

  /** A fraction `u` of `c`. */
  function Scale(c: real, u: Draw): (y: real)
    ensures c >= 0.0 ==> 0.0 <= y <= c
  {
    ScaleBounds(c, u);
    c * u
  }

  lemma ScaleBounds(c: real, u: real)
    requires 0.0 <= u <= 1.0
    ensures c >= 0.0 ==> 0.0 <= c * u <= c
  {
    if c >= 0.0 {
      NonNegativeProduct(c, u);
      NonNegativeProduct(c, 1.0 - u);
      assert c * (1.0 - u) == c - c * u;
    }
  }

  lemma NonNegativeProduct(x: real, y: real)
    requires x >= 0.0 && y >= 0.0
    ensures x * y >= 0.0
  {
  }

  class Person {
    var attributes: map<string, Value>
    var vitals: map<VitalSign, real>
    var plans: seq<PlanRecord>
    var premiumChecks: seq<int>

    constructor (attributes: map<string, Value>, vitals: map<VitalSign, real>)
      ensures this.attributes == attributes && this.vitals == vitals
      ensures plans == [] && premiumChecks == []
    {
      this.attributes := attributes;
      this.vitals := vitals;
      plans := [];
      premiumChecks := [];
    }

    function Snapshot(): Body
      reads this
    {
      Body(attributes, vitals)
    }

    method PutAttribute(key: string, x: Value)
      modifies this`attributes
      ensures attributes == old(attributes)[key := x]
    {
      attributes := attributes[key := x];
    }

    method RemoveAttribute(key: string)
      modifies this`attributes
      ensures attributes == old(attributes) - {key}
    {
      attributes := attributes - {key};
    }

    method SetVitalSign(sign: VitalSign, x: real)
      modifies this`vitals
      ensures vitals == old(vitals)[sign := x]
    {
      vitals := vitals[sign := x];
    }

    /** `coverage.setPayerAtTime(time, primary, secondary)`. */
    method SetPayerAtTime(time: int, primary: PayerId, secondary: PayerId)
      modifies this`plans
      ensures plans == old(plans) + [PlanRecord(time, primary, secondary)]
    {
      plans := plans + [PlanRecord(time, primary, secondary)];
    }

    /** `checkToPayMonthlyPremium(time)`: the payment itself lives outside the model. */
    method CheckToPayMonthlyPremium(time: int)
      modifies this`premiumChecks
      ensures premiumChecks == old(premiumChecks) + [time]
    {
      premiumChecks := premiumChecks + [time];
    }
  }

  /** Count of `m` at `p`, zero when absent. */
  function CountAt(m: map<PayerId, nat>, p: PayerId): nat {
    if p in m then m[p] else 0
  }

  function SumAt(m: map<PayerId, real>, p: PayerId): real {
    if p in m then m[p] else 0.0
  }

  /** The shared aggregates of every payer: customer counts and quality-of-life totals. */
  class PayerBook {
    var customers: map<PayerId, nat>
    var qols: map<PayerId, real>

    constructor ()
      ensures customers == map[] && qols == map[]
    {
      customers := map[];
      qols := map[];
    }

    /** `payer.incrementCustomers(person)`. */
    method IncrementCustomers(p: PayerId)
      modifies this`customers
      ensures customers == old(customers)[p := CountAt(old(customers), p) + 1]
    {
      customers := customers[p := CountAt(customers, p) + 1];
    }

    /** `payer.addQols(q)`. */
    method AddQols(p: PayerId, q: real)
      modifies this`qols
      ensures qols == old(qols)[p := SumAt(old(qols), p) + q]
    {
      qols := qols[p := SumAt(qols, p) + q];
    }
  }
}
