/** Start-up configuration: the key check of the folder settings file
    (validate_json_keys) and the defaulting rules of load_env_file. */
module Config {
  import opened Wrappers
  import opened Json

  // ------------------------------------------------------ validate_json_keys

  /** One entry of "folders": a dict with folder_path, output_folder and an endpoint dict
      holding url and payload. */
  predicate WellFormedFolder(folder: Json) {
    && folder.JDict?
    && "folder_path" in folder.fields
    && "output_folder" in folder.fields
    && "endpoint" in folder.fields
    && folder.fields["endpoint"].JDict?
    && "url" in folder.fields["endpoint"].fields
    && "payload" in folder.fields["endpoint"].fields
  }

  /** When validate_json_keys returns instead of exiting. The top level must be a dict with
      "folders" (on a list or string the `in` test or the subscript fails, and on a number
      or None Python raises a TypeError). Iterating "folders" visits the elements of a list,
      the keys of a dict and the characters of a string, none of which is a dict; so a dict
      or string value passes only when empty, and any other value is not iterable. */
  ghost predicate ValidConfig(config: Json) {
    && config.JDict?
    && "folders" in config.fields
    && match config.fields["folders"]
       case JList(items) => forall k :: 0 <= k < |items| ==> WellFormedFolder(items[k])
       case JDict(fields) => fields == map[]
       case JStr(s) => s == ""
       case _ => false
  }

  /** validate_json_keys: true when it returns, false when it calls sys_exit() or raises. */
  method ValidateJsonKeys(config: Json) returns (ok: bool)
    ensures ok <==> ValidConfig(config)
  {
    if !config.JDict? || "folders" !in config.fields {
      return false;
    }
    var folders := config.fields["folders"];
    match folders {
      case JList(items) =>
        for i := 0 to |items|
          invariant forall k :: 0 <= k < i ==> WellFormedFolder(items[k])
        {
          var folder := items[i];
          if !folder.JDict? {
            return false;
          }
          if !({"folder_path", "output_folder", "endpoint"} <= folder.fields.Keys) {
            return false;
          }
          var endpoint := folder.fields["endpoint"];
          if !endpoint.JDict? {
            return false;
          }
          if !({"url", "payload"} <= endpoint.fields.Keys) {
            return false;
          }
        }
        return true;
      case JDict(fields) =>
        return fields == map[];
      case JStr(s) =>
        return s == "";
      case _ =>
        return false;
    }
  }

  // ---------------------------------------------------------- load_env_file

  /** A value of the env_config dict: a string, or an integer once parsed. */
  datatype EnvValue = EStr(s: string) | EInt(n: int)

  const ValidLogLevels: set<string> := {"DEBUG", "INFO", "WARNING", "ERROR", "CRITICAL"}
  const EnvKeys: set<string> := {"api_key", "log_level", "log_file_max_mb", "log_file_backup_count"}

  function AsciiUpperChar(c: char): char {
    if 'a' <= c <= 'z' then (c as int - 32) as char else c
  }

  /** `str.upper()` on ASCII letters. */
  function AsciiUpper(s: string): (r: string)
    ensures |r| == |s|
    ensures forall k :: 0 <= k < |s| ==> r[k] == AsciiUpperChar(s[k])
  {
    if s == [] then [] else [AsciiUpperChar(s[0])] + AsciiUpper(s[1..])
  }

  /** The log level the environment asks for, before validation (a missing variable reads
      as "INFO"). */
  function RequestedLogLevel(env: map<string, string>): string {
    AsciiUpper(if "LOG_LEVEL" in env then env["LOG_LEVEL"] else "INFO")
  }

  /** The variable is set, non-empty, and int() reads it as the positive number n. */
  predicate GivenPositive(env: map<string, string>, name: string,
                          parseInt: string -> Option<int>, n: int) {
    name in env && env[name] != "" && parseInt(env[name]) == Some(n) && n > 0
  }

  /** int() applied to an env_config value; None is a ValueError. */
  function ToInt(v: EnvValue, parseInt: string -> Option<int>): Option<int> {
    match v
    case EInt(n) => Some(n)
    case EStr(s) => parseInt(s)
  }

  /** Lines 112-146 of load_env_file: env maps the variables the .env file set; parseInt
      is Python's int() on a string. Every entry ends valid: the level is one of the five
      names and both sizes positive, each taken from the environment when it is usable
      and replaced by its default (INFO, 10, 5) otherwise. */
  method LoadEnvFile(env: map<string, string>, parseInt: string -> Option<int>)
    returns (config: map<string, EnvValue>)
    ensures config.Keys == EnvKeys
    ensures config["api_key"] == EStr(if "API_KEY" in env then env["API_KEY"] else "")
    ensures config["log_level"].EStr? && config["log_level"].s in ValidLogLevels
    ensures RequestedLogLevel(env) in ValidLogLevels ==>
      config["log_level"] == EStr(RequestedLogLevel(env))
    ensures RequestedLogLevel(env) !in ValidLogLevels ==> config["log_level"] == EStr("INFO")
    ensures config["log_file_max_mb"].EInt? && config["log_file_max_mb"].n > 0
    ensures forall n :: GivenPositive(env, "LOG_FILE_MAX_MB", parseInt, n) ==>
      config["log_file_max_mb"] == EInt(n)
    ensures (forall n :: !GivenPositive(env, "LOG_FILE_MAX_MB", parseInt, n)) ==>
      config["log_file_max_mb"] == EInt(10)
    ensures config["log_file_backup_count"].EInt? && config["log_file_backup_count"].n > 0
    ensures forall n :: GivenPositive(env, "LOG_FILE_BACKUP_COUNT", parseInt, n) ==>
      config["log_file_backup_count"] == EInt(n)
    ensures (forall n :: !GivenPositive(env, "LOG_FILE_BACKUP_COUNT", parseInt, n)) ==>
      config["log_file_backup_count"] == EInt(5)
  {
    var maxMb := if "LOG_FILE_MAX_MB" in env && env["LOG_FILE_MAX_MB"] != ""
                 then EStr(env["LOG_FILE_MAX_MB"]) else EInt(10);
    var backups := if "LOG_FILE_BACKUP_COUNT" in env && env["LOG_FILE_BACKUP_COUNT"] != ""
                   then EStr(env["LOG_FILE_BACKUP_COUNT"]) else EInt(5);
    config := map[
      "api_key" := EStr(if "API_KEY" in env then env["API_KEY"] else ""),
      "log_level" := EStr(RequestedLogLevel(env)),
      "log_file_max_mb" := maxMb,
      "log_file_backup_count" := backups];

    if config["log_level"].s !in ValidLogLevels {
      config := config["log_level" := EStr("INFO")];
    }

    var mb := ToInt(config["log_file_max_mb"], parseInt);
    if mb.None? || mb.value <= 0 {
      config := config["log_file_max_mb" := EInt(10)];
    } else {
      assert maxMb.EStr? ==> GivenPositive(env, "LOG_FILE_MAX_MB", parseInt, mb.value);
      config := config["log_file_max_mb" := EInt(mb.value)];
    }

    var count := ToInt(config["log_file_backup_count"], parseInt);
    if count.None? || count.value <= 0 {
      config := config["log_file_backup_count" := EInt(5)];
    } else {
      assert backups.EStr? ==> GivenPositive(env, "LOG_FILE_BACKUP_COUNT", parseInt, count.value);
      config := config["log_file_backup_count" := EInt(count.value)];
    }
  }
}
