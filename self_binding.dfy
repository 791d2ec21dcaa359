/**
 * The Autofac registration source that binds any concrete class nobody has
 * registered to itself. Reflection is replaced by a descriptor of the
 * requested type, the container's registration accessor by the set of
 * services that already have registrations, and the source object (whose
 * only state is a predicate fixed at construction) by a value.
 */
module SelfBinding {
  import opened Options

  /** What reflection tells the source about a type. */
  datatype ClrType = ClrType(
    fullName: string,
    isClass: bool,
    /** A subclass of `System.Delegate`. */
    isDelegate: bool,
    isAbstract: bool,
    isGenericTypeDefinition: bool,
    /** The arguments of a closed generic type; empty for any other type. */
    genericTypeArguments: seq<ClrType>,
    /** The type carries `[Singleton]`. */
    hasSingletonAttribute: bool)

  const StringTypeName := "System.String"

  /** A service request: by type, or of any other kind (keyed, named, ...). */
  datatype Service = TypedService(serviceType: ClrType) | OtherService(description: string)

  datatype Lifetime = InstancePerDependency | SingleInstance

  /** A registration that activates `limitType` by reflection and provides it as itself. */
  datatype Registration = Registration(limitType: ClrType, lifetime: Lifetime)

  /** A `SelfBindingRegistrationSource`: the predicate that selects the types it will register. */
  datatype Source = Source(accepts: ClrType -> bool)
  {
    /** The registrations are not adapters over other components. */
    function IsAdapterForIndividualComponents(): (adapter: bool)
      ensures !adapter
    {
      false
    }

    /** The same text whatever the predicate. */
    function ToString(): (text: string)
      ensures text == "SelfBindingRegistrationSource"
    {
      "SelfBindingRegistrationSource"
    }
  }

  ghost predicate AcceptsAll(src: Source) {
    forall t: ClrType :: src.accepts(t)
  }

  /** The parameterless constructor: a source that accepts every type. */
  function NewSource(): (src: Source)
    ensures AcceptsAll(src)
  {
    Source(AcceptEverything)
  }

  /**
   * The constructor taking a predicate, as written: the null test reads the
   * field, which is still unassigned, so the accept-all default always
   * replaces the argument `filter` (`None` stands for null).
   */
  function NewSourceWith(filter: Option<ClrType -> bool>): (src: Source)
    ensures AcceptsAll(src)
  {
    var field: Option<ClrType -> bool> := None;
    Source(if field.None? then AcceptEverything else OrAcceptEverything(filter))
  }

  /** The constructor taking a predicate, with the null test on the argument `filter`. */
  function NewSourceWithCorrected(filter: Option<ClrType -> bool>): (src: Source)
    ensures filter.None? ==> AcceptsAll(src)
    ensures filter.Some? ==> forall t: ClrType :: src.accepts(t) == filter.value(t)
  {
    Source(OrAcceptEverything(filter))
  }

  function AcceptEverything(t: ClrType): bool {
    true
  }

  /** A predicate argument with null read as accept-all. */
  function OrAcceptEverything(filter: Option<ClrType -> bool>): ClrType -> bool {
    if filter.None? then AcceptEverything else filter.value
  }

  /** A type the source can construct by reflection: a concrete, non-delegate class other than `string`. */
  predicate Constructible(t: ClrType) {
    && t.fullName != StringTypeName
    && t.isClass
    && !t.isDelegate
    && !t.isAbstract
    && !t.isGenericTypeDefinition
  }

  /** A generic argument that blocks the binding: the predicate accepts it and nothing registers it. */
  predicate Unsupplied(src: Source, registered: set<Service>, arg: ClrType) {
    src.accepts(arg) && TypedService(arg) !in registered
  }

  /** When the source offers a registration for `service`. */
  predicate SelfBindable(src: Source, service: Service, registered: set<Service>) {
    && service.TypedService?
    && Constructible(service.serviceType)
    && src.accepts(service.serviceType)
    && service !in registered
    && forall arg :: arg in service.serviceType.genericTypeArguments ==> !Unsupplied(src, registered, arg)
  }

  /** The scan over the generic arguments: the first one that blocks the binding, if any. */
  function FirstUnsupplied(src: Source, registered: set<Service>, args: seq<ClrType>): (r: Option<ClrType>)
    ensures r.Some? ==> r.value in args && Unsupplied(src, registered, r.value)
    ensures r.None? ==> forall arg :: arg in args ==> !Unsupplied(src, registered, arg)
  {
    if |args| == 0 then None
    else if Unsupplied(src, registered, args[0]) then Some(args[0])
    else FirstUnsupplied(src, registered, args[1..])
  }

  /**
   * `RegistrationsFor`: the guard chain, then one registration of the
   * service type as itself, single-instance when it carries `[Singleton]`.
   */
  function RegistrationsFor(src: Source, service: Service, registered: set<Service>): (r: seq<Registration>)
    ensures |r| <= 1
    ensures |r| == 1 <==> SelfBindable(src, service, registered)
    ensures |r| == 1 ==> r[0].limitType == service.serviceType
    ensures |r| == 1 ==> (r[0].lifetime == SingleInstance <==> service.serviceType.hasSingletonAttribute)
  {
    if !service.TypedService? || service.serviceType.fullName == StringTypeName then []
    else
      var t := service.serviceType;
      if !t.isClass || t.isDelegate || t.isAbstract || t.isGenericTypeDefinition
         || !src.accepts(t) || service in registered
      then []
      else if FirstUnsupplied(src, registered, t.genericTypeArguments).Some? then []
      else [Registration(t, if t.hasSingletonAttribute then SingleInstance else InstancePerDependency)]
  }

  /** Once its type is registered (by this source or anyone else), the source offers nothing more for it. */
  lemma OfferedOnce(src: Source, service: Service, registered: set<Service>)
    ensures RegistrationsFor(src, service, registered + {service}) == []
  {
    assert !SelfBindable(src, service, registered + {service});
  }

  /**
   * A generic argument the predicate rejects is never looked up: whether it
   * is registered makes no difference to the result.
   */
  lemma RejectedArgumentNotLookedUp(src: Source, service: Service, registered: set<Service>, arg: ClrType)
    requires !src.accepts(arg) && TypedService(arg) != service
    ensures RegistrationsFor(src, service, registered + {TypedService(arg)}) == RegistrationsFor(src, service, registered)
  {
    var more := registered + {TypedService(arg)};
    if service.TypedService? {
      forall a | a in service.serviceType.genericTypeArguments
        ensures Unsupplied(src, more, a) == Unsupplied(src, registered, a)
      {
        if a == arg {
          assert !src.accepts(a);
        }
      }
    }
    assert SelfBindable(src, service, more) == SelfBindable(src, service, registered);
  }

  /**
   * With an accept-all predicate (every source the constructors build as
   * written), a closed generic type is bound only when every one of its
   * type arguments is already registered.
   */
  lemma AcceptAllNeedsEveryArgument(src: Source, service: Service, registered: set<Service>)
    requires AcceptsAll(src) && service.TypedService? && Constructible(service.serviceType)
    requires service !in registered
    ensures |RegistrationsFor(src, service, registered)| == 1 <==>
      forall arg :: arg in service.serviceType.genericTypeArguments ==> TypedService(arg) in registered
  {
    assert src.accepts(service.serviceType);
    forall arg | arg in service.serviceType.genericTypeArguments
      ensures Unsupplied(src, registered, arg) <==> TypedService(arg) !in registered
    {
      assert src.accepts(arg);
    }
  }

  /** A class the predicate of the example below is meant to keep out. */
  const Widget := ClrType("Sample.Widget", true, false, false, false, [], false)

  /** A predicate that rejects every type. */
  function RejectEverything(t: ClrType): bool {
    false
  }

  /**
   * The predicate passed to the constructor is lost: a source built to
   * reject every type still binds `Widget`.
   */
  lemma PredicateDiscarded()
    ensures RegistrationsFor(NewSourceWith(Some(RejectEverything)), TypedService(Widget), {})
         == [Registration(Widget, InstancePerDependency)]
  {
    var src := NewSourceWith(Some(RejectEverything));
    assert src.accepts(Widget);
    assert SelfBindable(src, TypedService(Widget), {});
  }

  /** With the null test on the argument, the same source binds nothing. */
  lemma PredicateKept()
    ensures RegistrationsFor(NewSourceWithCorrected(Some(RejectEverything)), TypedService(Widget), {}) == []
  {
    var src := NewSourceWithCorrected(Some(RejectEverything));
    assert !src.accepts(Widget);
  }
}
