/** The service's configuration as the Python code holds it: a top-level dictionary whose
    `api` and `transfer` entries are nested dictionaries. The nested sections are objects
    here, so a shallow copy of the top level shares them, exactly as `dict.copy()` does.
    A key that is absent and a key present with a null value both read as `None`. */
module Settings {
  import opened Util

  /** One entry of `api.blueprints`. */
  datatype BlueprintConfig = BlueprintConfig(id: Option<string>, name: Option<string>, endpoint: Option<string>)

  /** The values of the `api` section that the service reads. */
  datatype ApiSettings = ApiSettings(
    server: Option<string>,
    username: Option<string>,
    password: Option<string>,
    endpoint: Option<string>,
    blueprints: Option<seq<BlueprintConfig>>)

  /** The values of the `transfer` section that the service reads. */
  datatype TransferSettings = TransferSettings(
    host: Option<string>,
    port: Option<int>,
    username: Option<string>,
    password: Option<string>,
    sshKeyPath: Option<string>,
    sshKeyPassphrase: Option<string>,
    remoteDirectory: Option<string>,
    transferMethod: Option<string>)

  /** The `backup` section. */
  datatype BackupSettings = BackupSettings(scriptPath: Option<string>, parameters: Option<seq<string>>)

  const NO_API := ApiSettings(None, None, None, None, None)
  const NO_TRANSFER := TransferSettings(None, None, None, None, None, None, None, None)

  /** The nested `api` dictionary. */
  class ApiSection {
    var server: Option<string>
    var username: Option<string>
    var password: Option<string>
    var endpoint: Option<string>
    var blueprints: Option<seq<BlueprintConfig>>

    constructor (v: ApiSettings)
      ensures View() == v
    {
      server, username, password := v.server, v.username, v.password;
      endpoint, blueprints := v.endpoint, v.blueprints;
    }

    function View(): ApiSettings
      reads this
    {
      ApiSettings(server, username, password, endpoint, blueprints)
    }
  }

  /** The nested `transfer` dictionary. */
  class TransferSection {
    var host: Option<string>
    var port: Option<int>
    var username: Option<string>
    var password: Option<string>
    var sshKeyPath: Option<string>
    var sshKeyPassphrase: Option<string>
    var remoteDirectory: Option<string>
    var transferMethod: Option<string>

    constructor (v: TransferSettings)
      ensures View() == v
    {
      host, port, username, password := v.host, v.port, v.username, v.password;
      sshKeyPath, sshKeyPassphrase := v.sshKeyPath, v.sshKeyPassphrase;
      remoteDirectory, transferMethod := v.remoteDirectory, v.transferMethod;
    }

    function View(): TransferSettings
      reads this
    {
      TransferSettings(host, port, username, password, sshKeyPath, sshKeyPassphrase, remoteDirectory, transferMethod)
    }
  }

  /** The top-level configuration dictionary; `null` stands for an absent section. */
  class AppConfig {
    var api: ApiSection?
    var transfer: TransferSection?
    var backup: BackupSettings

    constructor (api: ApiSection?, transfer: TransferSection?, backup: BackupSettings)
      ensures this.api == api && this.transfer == transfer && this.backup == backup
    {
      this.api, this.transfer, this.backup := api, transfer, backup;
    }

    /** `config.copy()`: a new top level whose entries are the very same section objects. */
    constructor ShallowCopy(other: AppConfig)
      ensures api == other.api && transfer == other.transfer && backup == other.backup
    {
      api, transfer, backup := other.api, other.transfer, other.backup;
    }
  }

  /** `config.get("api", {})`, read as values. */
  function ApiOf(config: AppConfig): ApiSettings
    reads config, config.api
  {
    if config.api == null then NO_API else config.api.View()
  }

  /** `config.get("transfer", {})`, read as values. */
  function TransferOf(config: AppConfig): TransferSettings
    reads config, config.transfer
  {
    if config.transfer == null then NO_TRANSFER else config.transfer.View()
  }
}
