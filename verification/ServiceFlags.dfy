/** The flag tables of src/cli/service-options.ts, and of the option modules it takes its value flags from. */
module ServiceFlags {
  import opened ServiceOptions

  const PATHS := {"--data-dir", "--state-dir"}

  const GENERAL := {
    "--host", "--port", "--mcp-port", "--browse-root", "--web-root", "--memory-warning-mib", "--public-url",
    "--backup-dir"}

  const BACKUP_OPERATION := {
    "--backup-interval-seconds", "--backup-retain-count", "--backup-retain-days", "--backup-max-bytes",
    "--backup-timeout-seconds", "--backup-queue-limit", "--backup-ui-actions"}

  const REMOTE_BACKUP := {
    "--backup-remote-restic", "--backup-remote-repository", "--backup-remote-repository-id",
    "--backup-remote-password-file", "--backup-remote-credentials-file", "--backup-remote-ca-file",
    "--backup-remote-upload-kib-per-second", "--backup-remote-pending-limit", "--backup-remote-attempt-limit",
    "--backup-remote-retry-seconds", "--backup-remote-timeout-seconds"}

  const USER_BACKUP := {
    "--user-backup-min-interval-seconds", "--user-backup-max-schedules", "--user-backup-max-bytes",
    "--user-backup-timeout-seconds", "--user-backup-queue-limit", "--user-backup-retain-count",
    "--user-backup-retain-days", "--user-backup-projects", "--user-backup-scopes", "--user-backup-target"}

  const MCP_SESSION := {
    "--mcp-claim-renewal-idle-minutes", "--mcp-session-idle-minutes", "--mcp-open-session-idle-minutes",
    "--mcp-reconnect-grace-seconds", "--mcp-drain-seconds", "--mcp-max-sessions",
    "--mcp-max-sessions-per-credential"}

  const BOOLEAN := {
    "--no-mcp", "--backup-before-migration", "--user-backup-enabled", "--backup-remote-enabled",
    "--backup-remote-disabled"}

  const INSTALL := {"--refresh", "--print", "--yes", "--unset"}

  const INTERNAL := ["--service-mode", "--no-open"]

  const SERVICE_FLAGS := Flags(
    PATHS, PATHS + GENERAL + BACKUP_OPERATION + REMOTE_BACKUP + USER_BACKUP + MCP_SESSION, BOOLEAN, INSTALL, INTERNAL,
    "--unset", "--user-backup-target", "--web-root", "--backup-remote-disabled", "--backup-remote")

  /** A length no install or internal flag has. */
  predicate Startup(flag: string) { |flag| > 14 || |flag| in {6, 8, 10, 11, 12, 13} }

  lemma GeneralFlags()
    ensures forall f :: f in PATHS + GENERAL ==> Startup(f)
  {
  }

  lemma BackupFlags()
    ensures forall f :: f in BACKUP_OPERATION ==> Startup(f)
  {
  }

  lemma RemoteFlags()
    ensures forall f :: f in REMOTE_BACKUP ==> Startup(f)
  {
  }

  lemma UserFlags()
    ensures forall f :: f in USER_BACKUP ==> Startup(f)
  {
  }

  lemma SessionFlags()
    ensures forall f :: f in MCP_SESSION ==> Startup(f)
  {
  }

  lemma BooleanFlags()
    ensures forall f :: f in BOOLEAN ==> Startup(f)
  {
  }

  lemma OtherFlags()
    ensures forall f :: f in INSTALL ==> !Startup(f) && f[2] != 's' && f[2] != 'n'
    ensures forall f :: f in INTERNAL ==> !Startup(f) && (f[2] == 's' || f[2] == 'n')
  {
  }

  /** The tables of the repository do not overlap, so the results about the merge hold for them. */
  lemma ServiceFlagsAreSeparate()
    ensures Separate(SERVICE_FLAGS)
  {
    GeneralFlags();
    BackupFlags();
    RemoteFlags();
    UserFlags();
    SessionFlags();
    BooleanFlags();
    OtherFlags();
  }
}
