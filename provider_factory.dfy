/*
 * services/payment/providers/provider.factory.js: the registry of payment
 * provider classes, a plain object keyed by name. Looking a name up in it
 * also finds the members every object inherits, such as `constructor` or
 * `toString`; those are truthy, so they count as taken.
 */
module ProviderFactory {
  import opened Common

  /** What `providers[name]` yields: a registered class, or a member inherited from Object.prototype. */
  datatype Entry = Registered(cls: string) | Inherited(name: string)

  /** A provider instance: the entry it was built from and its configuration. */
  datatype Provider = Provider(entry: Entry, keyId: string, keySecret: string)

  /** The members of Object.prototype a property read finds on a plain object. */
  const INHERITED: set<string> := {"constructor", "hasOwnProperty", "isPrototypeOf", "propertyIsEnumerable",
                                   "toLocaleString", "toString", "valueOf", "__proto__", "__defineGetter__",
                                   "__defineSetter__", "__lookupGetter__", "__lookupSetter__"}

  function NotSupported(name: string): string
  {
    "Payment provider '" + name + "' not supported"
  }

  function AlreadyRegistered(name: string): string
  {
    "Payment provider '" + name + "' is already registered"
  }

  /** `providers[name]`: an own entry, else an inherited member, else nothing. */
  function Lookup(providers: map<string, string>, name: string): (e: Option<Entry>)
    ensures name in providers ==> e == Some(Registered(providers[name]))
    ensures e.None? <==> name !in providers && name !in INHERITED
  {
    if name in providers then Some(Registered(providers[name]))
    else if name in INHERITED then Some(Inherited(name))
    else None
  }

  /** getProvider */
  function GetProviderSpec(providers: map<string, string>, name: string, keyId: string, keySecret: string)
    : (r: Result<Provider>)
    ensures r.Fail? <==> Lookup(providers, name).None?
    ensures r.Fail? ==> r.error == Thrown(NotSupported(name))
    ensures r.Ok? ==> r.value == Provider(Lookup(providers, name).value, keyId, keySecret)
  {
    match Lookup(providers, name)
    case None => Fail(Thrown(NotSupported(name)))
    case Some(e) => Ok(Provider(e, keyId, keySecret))
  }

  /** registerProvider */
  function RegisterSpec(providers: map<string, string>, name: string, cls: string): (r: Registration)
  {
    if Lookup(providers, name).Some? then Registration(Fail(Thrown(AlreadyRegistered(name))), providers)
    else Registration(Ok(()), providers[name := cls])
  }

  datatype Registration = Registration(result: Result<()>, providers: map<string, string>)

  /**
   * A registration succeeds exactly for a name that is neither registered
   * nor inherited; it then adds that name and changes no other; a refused
   * one changes nothing. Entries are never removed.
   */
  lemma RegisterEffect(providers: map<string, string>, name: string, cls: string)
    ensures var out := RegisterSpec(providers, name, cls);
            (out.result.Ok? <==> name !in providers && name !in INHERITED) &&
            (out.result.Ok? ==> out.providers == providers[name := cls] &&
                                 GetProviderSpec(out.providers, name, "", "").Ok?) &&
            (out.result.Fail? ==> out.providers == providers) &&
            providers.Keys <= out.providers.Keys &&
            (forall n :: n in providers ==> out.providers[n] == providers[n])
  {
  }

  /** A second registration of the same name is refused. */
  lemma RegisterTwiceRefused(providers: map<string, string>, name: string, c1: string, c2: string)
    ensures var first := RegisterSpec(providers, name, c1);
            RegisterSpec(first.providers, name, c2) == Registration(Fail(Thrown(AlreadyRegistered(name))), first.providers)
  {
  }

  /** The static registry of the factory. */
  class Registry {
    var providers: map<string, string>

    /** Only Razorpay is registered at first. */
    constructor ()
      ensures providers == map["razorpay" := "RazorpayProvider"]
    {
      providers := map["razorpay" := "RazorpayProvider"];
    }

    method GetProvider(name: string, keyId: string, keySecret: string) returns (r: Result<Provider>)
      ensures r == GetProviderSpec(providers, name, keyId, keySecret)
    {
      var e := Lookup(providers, name);
      if e.None? {
        return Fail(Thrown(NotSupported(name)));
      }
      r := Ok(Provider(e.value, keyId, keySecret));
    }

    method RegisterProvider(name: string, cls: string) returns (r: Result<()>)
      modifies this
      ensures Registration(r, providers) == RegisterSpec(old(providers), name, cls)
    {
      if Lookup(providers, name).Some? {
        return Fail(Thrown(AlreadyRegistered(name)));
      }
      providers := providers[name := cls];
      r := Ok(());
    }
  }

  /** Razorpay stays available whatever is registered after it; 'stripe' and 'paypal' are not supported at first. */
  lemma RazorpayAlwaysAvailable(providers: map<string, string>, name: string, cls: string)
    requires "razorpay" in providers
    ensures GetProviderSpec(RegisterSpec(providers, name, cls).providers, "razorpay", "", "").Ok?
    ensures GetProviderSpec(map["razorpay" := "RazorpayProvider"], "stripe", "", "") == Fail(Thrown(NotSupported("stripe")))
  {
  }
}
