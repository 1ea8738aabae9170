/**
 The plugin's initialisation and its `setApiKey` helper.

 The configuration is a tagged union in place of the run-time probe for a
 client instance: either a client the caller built, or an `apiKey` and a
 `stripe` options value, both still untyped until validated. The plugin keeps
 the client in two slots that the code assigns together: the closure's own
 variable (used by `ensureCustomer`) and the one attached to the host (returned
 by `setApiKey` for a caller-supplied client).
 */
module Plugin {
  import opened Js
  import Customers

  /** A provider client: the credential and options it was constructed from. */
  datatype Client = Client(apiKey: string, config: Value)

  /** The plugin options. */
  datatype Config =
    | Prebuilt(client: Client)
    | Options(apiKey: Value, stripe: Value)

  /** The shape of every validation message: `name expected to be "expected",
      but recieved "received"` (the misspelling is the plugin's). It names
      what was checked and what it received. */
  function ExpectedMessage(name: string, expected: string, received: string): (m: string)
    ensures Contains(m, name)
    ensures Contains(m, received)
  {
    var a, b, q := " expected to be \"", "\", but recieved \"", "\"";
    ContainsPrefix(name, a);
    ContainsExtend(name + a, name, expected);
    ContainsExtend(name + a + expected, name, b);
    ContainsExtend(name + a + expected + b, name, received);
    ContainsExtend(name + a + expected + b + received, name, q);
    ContainsInfix(name + a + expected + b, received, q);
    name + a + expected + b + received + q
  }

  function ApiKeyOptionMessage(received: string): string
  {
    ExpectedMessage("options.apiKey", "string", received)
  }

  function StripeOptionMessage(received: string): string
  {
    ExpectedMessage("options.stripe", "object", received)
  }

  function SetApiKeyMessage(received: string): string
  {
    ExpectedMessage("apiKey", "string", received)
  }

  /** Options a client can be constructed from: `typeof` is `'object'` and the
      value is not `null`. */
  predicate IsClientConfig(v: Value)
  {
    TypeOf(v) == "object" && !v.Null?
  }

  /** Initialisation: take the supplied client, or check the key and then the
      options and construct a client from the two. */
  function Initialise(cfg: Config): (r: Outcome<Client>)
    ensures cfg.Prebuilt? ==> r == Returned(cfg.client)
    ensures cfg.Options? ==>
              (r.Returned? <==> cfg.apiKey.Str? && (cfg.stripe.Object? || cfg.stripe.Array?))
    ensures cfg.Options? && r.Returned? ==> r.value == Client(cfg.apiKey.s, cfg.stripe)
  {
    match cfg
    case Prebuilt(c) => Returned(c)
    case Options(apiKey, stripe) =>
      if !apiKey.Str? then
        Threw(Error(ApiKeyOptionMessage(TypeOf(apiKey))))
      else if TypeOf(stripe) != "object" || stripe.Null? then
        Threw(Error(StripeOptionMessage(if stripe.Null? then "null" else TypeOf(stripe))))
      else
        Returned(Client(apiKey.s, stripe))
  }

  /** The key is checked first: a key that is not a string is rejected with a
      message naming its type, whatever the options are. */
  lemma NonStringApiKeyRejected(apiKey: Value, stripe: Value)
    requires !apiKey.Str?
    ensures Initialise(Options(apiKey, stripe)).Threw?
    ensures Contains(Initialise(Options(apiKey, stripe)).error.message, "options.apiKey")
    ensures Contains(Initialise(Options(apiKey, stripe)).error.message, TypeOf(apiKey))
  {
  }

  /** With a string key, options that are `null` or not an object are rejected
      with a message naming `null` or their type. */
  lemma BadStripeOptionsRejected(apiKey: string, stripe: Value)
    requires !IsClientConfig(stripe)
    ensures Initialise(Options(Str(apiKey), stripe)).Threw?
    ensures Contains(Initialise(Options(Str(apiKey), stripe)).error.message, "options.stripe")
    ensures Contains(Initialise(Options(Str(apiKey), stripe)).error.message,
                     if stripe.Null? then "null" else TypeOf(stripe))
  {
  }

  /** The keys the plugin's tests register with (0, true, undefined, null, {},
      []) are all rejected by the key check, and so is a registration with
      no options at all. */
  lemma TestedKeysRejected(stripe: Value)
    ensures forall k :: k in [Number(0), Bool(true), Undefined, Null, Object([]), Array([])] ==>
              Initialise(Options(k, stripe)).Threw?
              && Initialise(Options(k, stripe)).error.message == ApiKeyOptionMessage(TypeOf(k))
    ensures Initialise(Options(Undefined, Undefined)) == Threw(Error(ApiKeyOptionMessage("undefined")))
  {
  }

  /** What registering the plugin gives: the plugin, or the error that makes
      the registration fail. */
  datatype Registration = Registered(plugin: StripePlugin) | Rejected(error: Error)

  /** Registers the plugin: the plugin's checks, in their order, then the
      plugin with its client. */
  method Register(cfg: Config) returns (r: Registration)
    ensures Initialise(cfg).Threw? ==> r == Rejected(Initialise(cfg).error)
    ensures Initialise(cfg).Returned? ==>
              && r.Registered? && fresh(r.plugin) && r.plugin.Valid()
              && r.plugin.options == cfg
              && r.plugin.stripe == Initialise(cfg).value
              && r.plugin.constructions == (if cfg.Prebuilt? then [] else [(cfg.apiKey.s, cfg.stripe)])
  {
    if cfg.Options? {
      if !cfg.apiKey.Str? {
        return Rejected(Error(ApiKeyOptionMessage(TypeOf(cfg.apiKey))));
      }
      if TypeOf(cfg.stripe) != "object" || cfg.stripe.Null? {
        var received := if cfg.stripe.Null? then "null" else TypeOf(cfg.stripe);
        return Rejected(Error(StripeOptionMessage(received)));
      }
    }
    var plugin := new StripePlugin(cfg);
    return Registered(plugin);
  }

  /** A registered plugin and the client it holds. */
  class StripePlugin {
    /** The options the plugin was registered with. */
    const options: Config
    /** The client `ensureCustomer` uses. */
    var stripe: Client
    /** The client attached to the host. */
    var attached: Client
    /** Every client construction so far: (credential, options). */
    ghost var constructions: seq<(string, Value)>

    /** Both slots hold the same client; a supplied client is never replaced
        and nothing is constructed for it; otherwise the options were
        validated, every construction used them, and the held client is the
        last one constructed. */
    ghost predicate Valid()
      reads this
    {
      && attached == stripe
      && (options.Prebuilt? ==> stripe == options.client && constructions == [])
      && (options.Options? ==>
            && options.apiKey.Str? && IsClientConfig(options.stripe)
            && constructions != []
            && (forall i :: 0 <= i < |constructions| ==> constructions[i].1 == options.stripe)
            && stripe == Client(constructions[|constructions| - 1].0, options.stripe))
    }

    /** Initialisation once the checks have passed. */
    constructor (cfg: Config)
      requires Initialise(cfg).Returned?
      ensures Valid() && options == cfg && stripe == Initialise(cfg).value
      ensures constructions == (if cfg.Prebuilt? then [] else [(cfg.apiKey.s, cfg.stripe)])
    {
      options := cfg;
      if cfg.Prebuilt? {
        stripe := cfg.client;
        constructions := [];
      } else {
        stripe := Client(cfg.apiKey.s, cfg.stripe);
        constructions := [(cfg.apiKey.s, cfg.stripe)];
      }
      attached := stripe;
    }

    /** `setApiKey(apiKey)`: reject a key that is not a string; keep a supplied
        client and return the attached one; otherwise construct a client from
        the new key and the original options, hold it in both slots and
        return it. */
    method SetApiKey(apiKey: Value) returns (r: Outcome<Client>)
      requires Valid()
      modifies this
      ensures Valid()
      ensures !apiKey.Str? ==>
                r == Threw(Error(SetApiKeyMessage(TypeOf(apiKey)))) && unchanged(this)
      ensures apiKey.Str? && options.Prebuilt? ==>
                r == Returned(old(attached)) && r.value == options.client && unchanged(this)
      ensures apiKey.Str? && options.Options? ==>
                && stripe == Client(apiKey.s, options.stripe)
                && attached == stripe
                && r == Returned(stripe)
                && constructions == old(constructions) + [(apiKey.s, options.stripe)]
    {
      if !apiKey.Str? {
        return Threw(Error(SetApiKeyMessage(TypeOf(apiKey))));
      }
      if options.Prebuilt? {
        return Returned(attached);
      }
      stripe := Client(apiKey.s, options.stripe);
      constructions := constructions + [(apiKey.s, options.stripe)];
      attached := stripe;
      return Returned(stripe);
    }

    /** `ensureCustomer` runs against the client the plugin holds now;
        `api` gives the customer operations of each client. */
    method EnsureCustomer(api: Client -> Customers.Provider, customerId: Value,
                          params: Customers.CustomerCreateParams,
                          query: Option<Customers.CustomerQuery>) returns (r: Customers.Run)
      ensures r == Customers.EnsureCustomer(api(stripe), customerId, params, query)
    {
      r := Customers.EnsureCustomer(api(stripe), customerId, params, query);
    }
  }

  /** After a key rotation on a plugin registered with a key and options,
      `ensureCustomer` talks to the client built from the new key and the
      original options. */
  method RotatedKeyIsUsed(apiKey: string, config: Value, newKey: string,
                          api: Client -> Customers.Provider, customerId: Value,
                          params: Customers.CustomerCreateParams,
                          query: Option<Customers.CustomerQuery>) returns (rotated: Client, r: Customers.Run)
    requires IsClientConfig(config)
    ensures rotated == Client(newKey, config)
    ensures r == Customers.EnsureCustomer(api(Client(newKey, config)), customerId, params, query)
  {
    var registration := Register(Options(Str(apiKey), config));
    var plugin := registration.plugin;
    var result := plugin.SetApiKey(Str(newKey));
    rotated := result.value;
    r := plugin.EnsureCustomer(api, customerId, params, query);
  }

  /** A plugin registered with a supplied client keeps it through
      `setApiKey`, and `ensureCustomer` keeps using it. */
  method SuppliedClientIsKept(client: Client, newKey: string,
                              api: Client -> Customers.Provider, customerId: Value,
                              params: Customers.CustomerCreateParams,
                              query: Option<Customers.CustomerQuery>) returns (returned: Client, r: Customers.Run)
    ensures returned == client
    ensures r == Customers.EnsureCustomer(api(client), customerId, params, query)
  {
    var registration := Register(Prebuilt(client));
    var plugin := registration.plugin;
    var result := plugin.SetApiKey(Str(newKey));
    returned := result.value;
    r := plugin.EnsureCustomer(api, customerId, params, query);
  }
}
