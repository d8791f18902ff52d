/** The `service` attribute macro: it re-emits the struct it is attached
    to and implements `ServiceDefinition` for it from the macro's
    arguments, defaulting absent versions to 0. Parsing the arguments
    (darling's `from_list`) and token output are not modelled. */
module ServiceMacro {
  import opened Wrappers
  import opened SomeIpTypes
  import opened SmipTypes

  /** The struct the attribute is attached to; only its name matters here,
      the rest is carried through untouched. */
  datatype StructDef = StructDef(name: string, fields: seq<string>)

  /** `ServiceArgs`: a required id and two optional versions. */
  datatype ServiceArgs = ServiceArgs(
    id: ServiceId, majorVersion: Option<MajorVersion>, minorVersion: Option<MinorVersion>)

  /** The macro's output: the struct, then `impl ServiceDefinition for <name>`. */
  datatype ServiceExpansion = ServiceExpansion(
    structDef: StructDef, implFor: string, definition: ServiceDefinition)

  /** `Option::unwrap_or`. */
  function UnwrapOr<T>(o: Option<T>, default: T): (r: T)
    ensures o.Some? ==> r == o.value
    ensures o.None? ==> r == default
  {
    match o
    case Some(v) => v
    case None => default
  }

  /** `expand_service_impl`. */
  function ExpandServiceImpl(s: StructDef, args: ServiceArgs): (r: ServiceExpansion)
    ensures r.structDef == s && r.implFor == s.name
    ensures r.definition.id == args.id
  {
    ServiceExpansion(s, s.name,
      ServiceDefinition(args.id, UnwrapOr(args.majorVersion, 0), UnwrapOr(args.minorVersion, 0)))
  }

  /** Versions left out of the attribute are 0. */
  lemma AbsentVersionsDefaultToZero(s: StructDef, args: ServiceArgs)
    ensures args.majorVersion.None? ==> ExpandServiceImpl(s, args).definition.majorVersion == 0
    ensures args.minorVersion.None? ==> ExpandServiceImpl(s, args).definition.minorVersion == 0
  {
  }

  /** Versions given in the attribute pass through unchanged. */
  lemma GivenVersionsPassThrough(s: StructDef, args: ServiceArgs)
    ensures args.majorVersion.Some? ==>
      ExpandServiceImpl(s, args).definition.majorVersion == args.majorVersion.value
    ensures args.minorVersion.Some? ==>
      ExpandServiceImpl(s, args).definition.minorVersion == args.minorVersion.value
  {
  }

  /** Writing a version out as 0 is the same as leaving it out. */
  lemma ExplicitZeroIsDefault(s: StructDef, id: ServiceId)
    ensures ExpandServiceImpl(s, ServiceArgs(id, Some(0), Some(0)))
         == ExpandServiceImpl(s, ServiceArgs(id, None, None))
  {
  }
}
