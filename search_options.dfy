/**
  The search-option negotiation of the config-drive metadata service:
  the configured content types and search locations are copied, the three
  deprecated boolean options add their fixed type/location pairs, and the
  result is checked against the supported universes, types first.
 */
module ConfigDriveOptions {
  import opened Wrappers

  /** The content types a config drive may carry: a partitioned "vfat"
      volume, or "iso" bytes stored raw. */
  const CdTypes: set<string> := {"vfat", "iso"}

  /** The places searched: optical drives, raw physical disks, partitions. */
  const CdLocations: set<string> := {"cdrom", "hdd", "partition"}

  /** The `config_drive` configuration group, passed in as a value.
      `types` and `locations` are the configured lists. */
  datatype Options = Options(
    types: seq<string>,
    locations: seq<string>,
    rawHdd: bool,
    cdrom: bool,
    vfat: bool)

  /** The pair of sets handed to the locator. */
  datatype SearchRequest = SearchRequest(types: set<string>, locations: set<string>)

  /** The configuration exception; it carries the whole offending set. */
  datatype ConfigError = InvalidTypes(types: set<string>) | InvalidLocations(locations: set<string>)

  /** A deprecated boolean option and the type/location pair it implies. */
  datatype LegacyFlag = LegacyFlag(active: bool, cdType: string, location: string)

  /** The three deprecated options, in the order they are applied. */
  function LegacyFlags(o: Options): (flags: seq<LegacyFlag>)
    ensures |flags| == 3
    ensures flags[0].active == o.rawHdd && flags[1].active == o.cdrom && flags[2].active == o.vfat
    ensures forall i :: 0 <= i < |flags| ==> flags[i].cdType in CdTypes && flags[i].location in CdLocations
  {
    [LegacyFlag(o.rawHdd, "iso", "hdd"),
     LegacyFlag(o.cdrom, "iso", "cdrom"),
     LegacyFlag(o.vfat, "vfat", "hdd")]
  }

  /** The configured lists as sets (a copy: nothing is shared with the options). */
  function Configured(o: Options): (r: SearchRequest)
    ensures forall t :: t in r.types <==> t in o.types
    ensures forall l :: l in r.locations <==> l in o.locations
  {
    SearchRequest(set t | t in o.types, set l | l in o.locations)
  }

  /** What one deprecated option adds to the request. */
  function Contribution(f: LegacyFlag): SearchRequest {
    if f.active then SearchRequest({f.cdType}, {f.location}) else SearchRequest({}, {})
  }

  /** Adds the contributions of `flags` to `r`, one option after another. */
  function Merge(r: SearchRequest, flags: seq<LegacyFlag>): SearchRequest
    decreases |flags|
  {
    if flags == [] then r
    else
      var c := Contribution(flags[0]);
      Merge(SearchRequest(r.types + c.types, r.locations + c.locations), flags[1..])
  }

  /** The types the active options among `flags` imply. */
  function ActiveTypes(flags: seq<LegacyFlag>): set<string> {
    set i | 0 <= i < |flags| && flags[i].active :: flags[i].cdType
  }

  /** The locations the active options among `flags` imply. */
  function ActiveLocations(flags: seq<LegacyFlag>): set<string> {
    set i | 0 <= i < |flags| && flags[i].active :: flags[i].location
  }

  /** The searched sets: the configured ones with every active option's pair. */
  function Searched(o: Options): SearchRequest {
    Merge(Configured(o), LegacyFlags(o))
  }

  /** The source's validity test `s | universe != universe`. */
  function Exceeds(s: set<string>, universe: set<string>): (r: bool)
    ensures r <==> exists x :: x in s && x !in universe
    ensures !r <==> s <= universe
  {
    s + universe != universe
  }

  /** The validation step: types are checked before locations. */
  function Validate(req: SearchRequest): (r: Outcome<ConfigError>)
    ensures r.Pass? <==> req.types <= CdTypes && req.locations <= CdLocations
    ensures r == Fail(InvalidTypes(req.types)) <==> !(req.types <= CdTypes)
    ensures r == Fail(InvalidLocations(req.locations)) <==>
              req.types <= CdTypes && !(req.locations <= CdLocations)
  {
    if Exceeds(req.types, CdTypes) then Fail(InvalidTypes(req.types))
    else if Exceeds(req.locations, CdLocations) then Fail(InvalidLocations(req.locations))
    else Pass
  }

  /** Option preprocessing as a whole: the validated request, or the error. */
  function Preprocess(o: Options): Result<SearchRequest, ConfigError> {
    var req := Searched(o);
    match Validate(req)
    case Pass => Success(req)
    case Fail(e) => Failure(e)
  }

  // ---------------------------------------------------------------------
  // The legacy options only add, and add exactly their pairs.

  /** Splitting off the first option's contribution. */
  lemma ActiveSplit(flags: seq<LegacyFlag>)
    requires flags != []
    ensures ActiveTypes(flags) == Contribution(flags[0]).types + ActiveTypes(flags[1..])
    ensures ActiveLocations(flags) == Contribution(flags[0]).locations + ActiveLocations(flags[1..])
  {
  }

  /** Applying the options one after another is the union of the request
      with everything the active options imply. */
  lemma {:induction false} MergeIsUnion(r: SearchRequest, flags: seq<LegacyFlag>)
    ensures Merge(r, flags) ==
            SearchRequest(r.types + ActiveTypes(flags), r.locations + ActiveLocations(flags))
    decreases |flags|
  {
    if flags == [] {
      assert ActiveTypes(flags) == {};
      assert ActiveLocations(flags) == {};
    } else {
      var c := Contribution(flags[0]);
      MergeIsUnion(SearchRequest(r.types + c.types, r.locations + c.locations), flags[1..]);
      ActiveSplit(flags);
    }
  }

  /** If every option's pair lies inside the universes, the merged request
      lies inside them exactly when the starting request does. */
  lemma MergeWithin(r: SearchRequest, flags: seq<LegacyFlag>)
    requires forall i :: 0 <= i < |flags| ==> flags[i].cdType in CdTypes && flags[i].location in CdLocations
    ensures Merge(r, flags).types <= CdTypes <==> r.types <= CdTypes
    ensures Merge(r, flags).locations <= CdLocations <==> r.locations <= CdLocations
  {
    MergeIsUnion(r, flags);
  }

  /** The searched sets in closed form: the configured sets plus "iso" for
      raw_hdd or cdrom, "vfat" for vfat; "hdd" for raw_hdd or vfat, "cdrom"
      for cdrom. */
  lemma SearchedIsUnion(o: Options)
    ensures Searched(o).types ==
            Configured(o).types
            + (if o.rawHdd || o.cdrom then {"iso"} else {})
            + (if o.vfat then {"vfat"} else {})
    ensures Searched(o).locations ==
            Configured(o).locations
            + (if o.rawHdd || o.vfat then {"hdd"} else {})
            + (if o.cdrom then {"cdrom"} else {})
  {
    var flags := LegacyFlags(o);
    MergeIsUnion(Configured(o), flags);
    ActiveSplit(flags);
    ActiveSplit(flags[1..]);
    ActiveSplit(flags[2..]);
    assert flags[1..][1..] == flags[2..];
    assert flags[2..][1..] == [];
    assert ActiveTypes([]) == {} && ActiveLocations([]) == {};
  }

  /** Preprocessing never removes a configured type or location. */
  lemma SearchedSuperset(o: Options)
    ensures Configured(o).types <= Searched(o).types
    ensures Configured(o).locations <= Searched(o).locations
  {
    MergeIsUnion(Configured(o), LegacyFlags(o));
  }

  /** With the three deprecated options off, the searched sets are exactly
      the configured ones. */
  lemma NoLegacyFlagsExact(o: Options)
    requires !o.rawHdd && !o.cdrom && !o.vfat
    ensures Searched(o) == Configured(o)
  {
    SearchedIsUnion(o);
  }

  // ---------------------------------------------------------------------
  // When preprocessing succeeds, and which error it raises.

  /** Preprocessing succeeds exactly when the configured lists stay inside
      the universes, whatever the deprecated options say; on success the
      request is the searched sets. */
  lemma PreprocessSucceedsIff(o: Options)
    ensures Preprocess(o).Success? <==>
            Configured(o).types <= CdTypes && Configured(o).locations <= CdLocations
    ensures Preprocess(o).Success? ==> Preprocess(o).value == Searched(o)
  {
    MergeWithin(Configured(o), LegacyFlags(o));
  }

  /** An empty configuration passes, with any deprecated options: those alone
      never cause a failure. */
  lemma LegacyFlagsNeverFail(o: Options)
    requires o.types == [] && o.locations == []
    ensures Preprocess(o).Success?
  {
    PreprocessSucceedsIff(o);
  }

  /** An invalid type is reported even when the locations are invalid too;
      the locations error comes only with valid types. */
  lemma TypesCheckedFirst(o: Options)
    ensures !(Configured(o).types <= CdTypes) ==>
            Preprocess(o) == Failure(InvalidTypes(Searched(o).types))
    ensures Configured(o).types <= CdTypes && !(Configured(o).locations <= CdLocations) ==>
            Preprocess(o) == Failure(InvalidLocations(Searched(o).locations))
  {
    MergeWithin(Configured(o), LegacyFlags(o));
  }

  /** Configured types ["iso"], no locations, cdrom on: the request is
      {"iso"} / {"cdrom"}. */
  lemma CdromScenario(o: Options)
    requires o == Options(["iso"], [], false, true, false)
    ensures Preprocess(o) == Success(SearchRequest({"iso"}, {"cdrom"}))
  {
    SearchedIsUnion(o);
    assert Configured(o).types == {"iso"};
    assert Configured(o).locations == {};
    assert Searched(o) == SearchRequest({"iso"}, {"cdrom"});
    assert Validate(Searched(o)) == Pass;
  }

  /** An unknown type is rejected, and the error names the searched types. */
  lemma BogusTypeScenario(o: Options)
    requires o == Options(["bogus"], [], false, false, false)
    ensures Preprocess(o) == Failure(InvalidTypes({"bogus"}))
  {
    NoLegacyFlagsExact(o);
    assert Configured(o).types == {"bogus"};
  }
}
