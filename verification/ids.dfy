/** experiment_store/ids.py: the identity contract, and the run-id shape the janitor trusts. */
module Ids {
  import opened Wrappers

  const ALIAS_TAG := "exp.alias"
  const CHIP_TAG := "chip"
  const REGION_TAG := "region"
  const WORKLOAD_TAG := "workload_id"
  const ARTIFACTS_URI_TAG := "artifacts_uri"
  const SCHEMA_VERSION_TAG := "schema_version"
  const NAMESPACE_TAG := "namespace"
  const SCHEMA_VERSION := "1"
  const CHIPS: set<string> := {"gpu", "neuron", "cpu"}

  const RESERVED_TAGS: set<string> :=
    {ALIAS_TAG, CHIP_TAG, REGION_TAG, WORKLOAD_TAG, ARTIFACTS_URI_TAG, SCHEMA_VERSION_TAG}

  predicate LowerOrDigit(c: char) { 'a' <= c <= 'z' || '0' <= c <= '9' }

  predicate AlphaNumeric(c: char) { LowerOrDigit(c) || 'A' <= c <= 'Z' }

  predicate HexDigit(c: char) { '0' <= c <= '9' || 'a' <= c <= 'f' }

  /** The whole string is of the alias and workload shape. */
  predicate SafeName(s: string) {
    1 <= |s| <= 128 && AlphaNumeric(s[0]) &&
    forall c :: c in s ==> AlphaNumeric(c) || c in {'.', '_', '-'}
  }

  predicate RegionName(s: string) {
    1 <= |s| <= 32 && forall c :: c in s ==> LowerOrDigit(c) || c == '-'
  }

  /** The whole string is 32 lower-case hexadecimal digits. */
  predicate RunId(s: string) { |s| == 32 && forall c :: c in s ==> HexDigit(c) }

  /** `$` in the program's patterns also matches before one final newline. */
  function BeforeFinalNewline(s: string): (r: string)
    ensures r <= s
  {
    if s != "" && s[|s| - 1] == '\n' then s[..|s| - 1] else s
  }

  predicate MatchesSafeId(s: string) { SafeName(s) || SafeName(BeforeFinalNewline(s)) }

  predicate MatchesRegion(s: string) { RegionName(s) || RegionName(BeforeFinalNewline(s)) }

  predicate MatchesRunId(s: string) { RunId(s) || RunId(BeforeFinalNewline(s)) }

  datatype Identity = Identity(alias: string, chip: string, region: string, workload: string)

  datatype IdentityError = BadAlias | BadChip | BadRegion | BadWorkload

  function ValidateIdentity(id: Identity): Result<(), IdentityError> {
    if !MatchesSafeId(id.alias) then Err(BadAlias)
    else if id.chip !in CHIPS then Err(BadChip)
    else if !MatchesRegion(id.region) then Err(BadRegion)
    else if !MatchesSafeId(id.workload) then Err(BadWorkload)
    else Ok(())
  }

  function CreationTags(id: Identity): map<string, string> {
    map[ALIAS_TAG := id.alias, CHIP_TAG := id.chip, REGION_TAG := id.region,
        WORKLOAD_TAG := id.workload, SCHEMA_VERSION_TAG := SCHEMA_VERSION]
  }

  predicate IsReserved(tag: string) { tag in RESERVED_TAGS }

  // ---- what the patterns accept, character by character ----

  predicate NameChars(s: string) {
    1 <= |s| <= 128 && s[0] != '.' && s[0] != '_' && s[0] != '-' &&
    forall i :: 0 <= i < |s| ==>
      'a' <= s[i] <= 'z' || 'A' <= s[i] <= 'Z' || '0' <= s[i] <= '9' || s[i] == '.' || s[i] == '_' || s[i] == '-'
  }

  predicate RegionChars(s: string) {
    1 <= |s| <= 32 && forall i :: 0 <= i < |s| ==> 'a' <= s[i] <= 'z' || '0' <= s[i] <= '9' || s[i] == '-'
  }

  predicate HexChars(s: string) {
    |s| == 32 && forall i :: 0 <= i < |s| ==> '0' <= s[i] <= '9' || 'a' <= s[i] <= 'f'
  }

  predicate EndsLine(s: string) { s != "" && s[|s| - 1] == '\n' }

  lemma NamesAreNames(s: string)
    ensures SafeName(s) <==> NameChars(s)
  {
    if SafeName(s) {
      assert forall i :: 0 <= i < |s| ==> s[i] in s;
    }
  }

  lemma RegionsAreRegions(s: string)
    ensures RegionName(s) <==> RegionChars(s)
  {
    if RegionName(s) {
      assert forall i :: 0 <= i < |s| ==> s[i] in s;
    }
  }

  lemma RunIdsAreHex(s: string)
    ensures RunId(s) <==> HexChars(s)
  {
    if RunId(s) {
      assert forall i :: 0 <= i < |s| ==> s[i] in s;
    }
  }

  /** 32 lower-case hexadecimal digits, and at most one newline behind them. */
  predicate HexLine(s: string) { HexChars(s) || (EndsLine(s) && HexChars(s[..|s| - 1])) }

  lemma JudgedIdsAreHex(s: string)
    ensures MatchesRunId(s) <==> HexLine(s)
  {
    RunIdsAreHex(s);
    RunIdsAreHex(BeforeFinalNewline(s));
  }

  /** The identities that are accepted, and what is found wrong first with the others. */
  lemma IdentityAccepted(id: Identity)
    ensures var alias := NameChars(id.alias) || (EndsLine(id.alias) && NameChars(id.alias[..|id.alias| - 1]));
            var chip := id.chip == "gpu" || id.chip == "neuron" || id.chip == "cpu";
            var region := RegionChars(id.region) || (EndsLine(id.region) && RegionChars(id.region[..|id.region| - 1]));
            var workload :=
              NameChars(id.workload) || (EndsLine(id.workload) && NameChars(id.workload[..|id.workload| - 1]));
            (ValidateIdentity(id).Ok? <==> alias && chip && region && workload) &&
            (ValidateIdentity(id) == Err(BadAlias) <==> !alias) &&
            (ValidateIdentity(id) == Err(BadChip) <==> alias && !chip) &&
            (ValidateIdentity(id) == Err(BadRegion) <==> alias && chip && !region) &&
            (ValidateIdentity(id) == Err(BadWorkload) <==> alias && chip && region && !workload)
  {
    NamesAreNames(id.alias);
    NamesAreNames(BeforeFinalNewline(id.alias));
    RegionsAreRegions(id.region);
    RegionsAreRegions(BeforeFinalNewline(id.region));
    NamesAreNames(id.workload);
    NamesAreNames(BeforeFinalNewline(id.workload));
  }
}
