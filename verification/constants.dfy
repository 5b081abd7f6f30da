/** The allowed-value tuples of `backend/app/core/constants.py` and the literal
    values the handlers compare against. */
module Constants {
  import opened Common

  const AllowedOsTypes: seq<string> :=
    ["windows", "windows_server", "ubuntu", "debian", "proxmox", "rhel", "centos", "macos", "other"]

  /** `target_os_type is None or target_os_type in ALLOWED_OS_TYPES`. */
  predicate OsAllowed(os: Option<string>) {
    os.None? || os.value in AllowedOsTypes
  }

  /** The detail of every 400 that rejects an OS type. */
  const OsTypeError: string := "target_os_type must be one of " + Join(AllowedOsTypes, ", ")

  const AllowedScriptLanguages: seq<string> := ["powershell", "bash"]

  const AllowedInstallerTypes: seq<string> := ["msi", "exe", "winget", "choco", "script", "custom"]

  const AllowedSourceTypes: seq<string> := ["url", "file_share", "local_path"]

  /** The four values of `Action.status`. */
  const StatusPending := "pending"
  const StatusRunning := "running"
  const StatusSucceeded := "succeeded"
  const StatusFailed := "failed"

  /** Action types whose script must be written in PowerShell. */
  predicate IsPowerShellType(actionType: string) {
    actionType == "powershell_script" || actionType == "powershell_inline"
  }

  /** Action types that carry their script inline in the payload. */
  predicate IsInlineType(actionType: string) {
    actionType == "powershell_inline" || actionType == "bash_inline"
  }

  const DefaultActionType := "powershell_inline"

  /** The poll interval every registration answers with. */
  const PollIntervalSeconds := 30
}
