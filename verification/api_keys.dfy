/** The API key: the process-wide registry the network layer reads it from,
    and the SDK entry object whose initializer validates and registers it.

    The registry is a static variable in the source; here it is one object
    passed to the members that use it. */
module ApiKeys {
  import opened Wrappers

  /** The registry's implicitly unwrapped `value`: nil until a key is set. */
  class KeyRegistry {
    var value: Option<string>

    constructor ()
      ensures value.None?
    {
      value := None;
    }

    /** `setAPIKey`: the new key replaces whatever was stored. */
    method SetApiKey(key: string)
      modifies this
      ensures value == Some(key)
    {
      value := Some(key);
    }

    /** `currentAPIKey`: the stored key; reading it before any key was set
        unwraps nil and stops the process. */
    method CurrentApiKey() returns (r: Guarded<string>)
      ensures value.None? <==> r.Traps?
      ensures value.Some? ==> r == Completes(value.value)
    {
      match value
      case Some(key) => r := Completes(key);
      case None => r := Traps;
    }
  }

  /** The SDK entry object; it holds the key it was created with. */
  class SmartSpectra {
    const apiKey: string

    constructor Store(apiKey: string)
      ensures this.apiKey == apiKey
    {
      this.apiKey := apiKey;
    }

    /** The initializer: an empty key stops the process before anything is
        stored; any other key is kept by the new object and registered,
        replacing the key of an earlier instance. */
    static method Init(apiKey: string, registry: KeyRegistry) returns (r: Guarded<SmartSpectra>)
      modifies registry
      ensures apiKey == [] ==> r.Traps? && registry.value == old(registry.value)
      ensures apiKey != [] ==> r.Completes? && fresh(r.value) && r.value.apiKey == apiKey
      ensures apiKey != [] ==> registry.value == Some(apiKey)
    {
      if apiKey == [] {
        return Traps;
      }
      var sdk := new SmartSpectra.Store(apiKey);
      registry.SetApiKey(apiKey);
      r := Completes(sdk);
    }
  }

  /** Two initializations in a row: the registry then serves the second key,
      and the first instance keeps its own. */
  method InitTwice(first: string, second: string, registry: KeyRegistry)
    returns (a: Guarded<SmartSpectra>, b: Guarded<SmartSpectra>, current: Guarded<string>)
    requires first != [] && second != []
    modifies registry
    ensures a.Completes? && b.Completes? && a.value.apiKey == first && b.value.apiKey == second
    ensures current == Completes(second)
  {
    a := SmartSpectra.Init(first, registry);
    b := SmartSpectra.Init(second, registry);
    current := registry.CurrentApiKey();
  }
}
