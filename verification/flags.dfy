/** The start-up check of `init` (main.go:105-117): the required flags are
    `-key`, `-domain` and `-name`, and the run stops, listing the missing ones
    in that order, when any of them is empty. */
module Flags {
  import opened Results

  /** The configuration the rest of the run reads. */
  datatype Config = Config(apiKey: string, domainName: string, recordName: string)

  /** A flag name paired with the value it was given. */
  datatype Flag = Flag(flagName: string, value: string)

  /** Reference definition: the names, in order, of the flags left empty. */
  function EmptyFlagNames(flags: seq<Flag>): (names: seq<string>)
    ensures |names| <= |flags|
    ensures forall n :: n in names <==> exists i :: 0 <= i < |flags| && flags[i].flagName == n && flags[i].value == ""
  {
    if flags == [] then []
    else (if flags[0].value == "" then [flags[0].flagName] else []) + EmptyFlagNames(flags[1..])
  }

  /** The three checks of `init`, one `append` each. */
  function MissingParams(apiKey: string, domainName: string, recordName: string): (missing: seq<string>)
    ensures "key" in missing <==> apiKey == ""
    ensures "domain" in missing <==> domainName == ""
    ensures "name" in missing <==> recordName == ""
    ensures missing == [] <==> apiKey != "" && domainName != "" && recordName != ""
  {
    var m1 := if apiKey == "" then ["key"] else [];
    var m2 := if domainName == "" then m1 + ["domain"] else m1;
    if recordName == "" then m2 + ["name"] else m2
  }

  /** The list `init` builds is the list of empty required flags, in the order
      key, domain, name. */
  lemma MissingParamsInFlagOrder(apiKey: string, domainName: string, recordName: string)
    ensures MissingParams(apiKey, domainName, recordName)
            == EmptyFlagNames([Flag("key", apiKey), Flag("domain", domainName), Flag("name", recordName)])
  {
    var flags := [Flag("key", apiKey), Flag("domain", domainName), Flag("name", recordName)];
    var k: seq<string> := if apiKey == "" then ["key"] else [];
    var d: seq<string> := if domainName == "" then ["domain"] else [];
    var n: seq<string> := if recordName == "" then ["name"] else [];
    assert flags[1..][1..][1..] == [];
    assert EmptyFlagNames(flags[1..][1..]) == n + [];
    assert EmptyFlagNames(flags[1..]) == d + (n + []);
    assert EmptyFlagNames(flags) == k + (d + (n + []));
    assert MissingParams(apiKey, domainName, recordName) == k + d + n;
  }

  /** `init` either yields a configuration with all three values present or
      stops with the non-empty list of missing flag names. */
  function LoadConfig(apiKey: string, domainName: string, recordName: string): (r: Result<Config, seq<string>>)
    ensures r.Ok? <==> apiKey != "" && domainName != "" && recordName != ""
    ensures r.Ok? ==> r.value == Config(apiKey, domainName, recordName)
    ensures r.Err? ==> r.error != [] && r.error == MissingParams(apiKey, domainName, recordName)
  {
    var missing := MissingParams(apiKey, domainName, recordName);
    if |missing| > 0 then Err(missing) else Ok(Config(apiKey, domainName, recordName))
  }
}
