/** The OS choices of the web client (`web/lib/osTypes.ts`): the options
    table and the label shown for a stored `target_os_type`. */
module OsTypes {
  import opened Common
  import opened Constants

  /** An entry of `TARGET_OS_OPTIONS`; `labelText` is the option's `label`
      (`label` is a reserved word in Dafny). */
  datatype OsOption = OsOption(value: string, labelText: string)

  const TargetOsOptions: seq<OsOption> := [
    OsOption("windows", "Windows"),
    OsOption("windows_server", "Windows Server"),
    OsOption("ubuntu", "Ubuntu"),
    OsOption("debian", "Debian"),
    OsOption("proxmox", "Proxmox"),
    OsOption("rhel", "RHEL"),
    OsOption("centos", "CentOS"),
    OsOption("macos", "macOS"),
    OsOption("other", "Other / Generic")
  ]

  /** `options.find(opt => opt.value === value)`: the first option with that value. */
  function FindOption(options: seq<OsOption>, value: string): (r: Option<OsOption>)
    ensures r.None? <==> forall i :: 0 <= i < |options| ==> options[i].value != value
    ensures r.Some? ==> exists i :: 0 <= i < |options| && options[i] == r.value
                                   && (forall j :: 0 <= j < i ==> options[j].value != value)
    ensures r.Some? ==> r.value.value == value
  {
    if options == [] then None
    else if options[0].value == value then Some(options[0])
    else
      var r := FindOption(options[1..], value);
      if r.Some? then
        var i :| 0 <= i < |options[1..]| && options[1..][i] == r.value
                 && (forall j :: 0 <= j < i ==> options[1..][j].value != value);
        assert options[i + 1] == r.value;
        r
      else r
  }

  /** `formatTargetOs`: "Any OS" for a missing or empty value, the label of a
      known value, and any other value unchanged. */
  function FormatTargetOs(value: Option<string>): string {
    if !Truthy(value) then "Any OS"
    else
      match FindOption(TargetOsOptions, value.value)
      case Some(opt) => opt.labelText
      case None => value.value
  }

  /** The table lists the backend's allowed OS types, in the same order, each
      value once. */
  lemma OptionsMatchBackend()
    ensures |TargetOsOptions| == 9
    ensures forall i :: 0 <= i < 9 ==> TargetOsOptions[i].value == AllowedOsTypes[i]
    ensures forall i, j :: 0 <= i < j < 9 ==> TargetOsOptions[i].value != TargetOsOptions[j].value
  {
  }

  lemma FormatFalsy(value: Option<string>)
    requires !Truthy(value)
    ensures FormatTargetOs(value) == "Any OS"
  {
  }

  /** Each known value shows its own label. */
  lemma FormatKnown(i: nat)
    requires i < |TargetOsOptions|
    ensures FormatTargetOs(Some(TargetOsOptions[i].value)) == TargetOsOptions[i].labelText
  {
    OptionsMatchBackend();
    var r := FindOption(TargetOsOptions, TargetOsOptions[i].value);
    var k :| 0 <= k < |TargetOsOptions| && TargetOsOptions[k] == r.value
             && (forall j :: 0 <= j < k ==> TargetOsOptions[j].value != TargetOsOptions[i].value);
    assert k == i;
  }

  /** A value outside the table is shown as it is. */
  lemma FormatUnknown(value: string)
    requires value != "" && value !in AllowedOsTypes
    ensures FormatTargetOs(Some(value)) == value
  {
    OptionsMatchBackend();
    forall i | 0 <= i < |TargetOsOptions| ensures TargetOsOptions[i].value != value {
      assert AllowedOsTypes[i] in AllowedOsTypes;
    }
  }
}
