/**
 * The account lifecycle behind `createUser` and `deleteUser`, as reference
 * definitions over an abstract world: which user directories exist, the
 * configuration file written into each, and the accounts registered with the
 * database layer (`FreshRSS_UserDAO`). Paths, bytes and SQL are abstracted
 * away; every foreign step is an input saying whether it succeeded.
 *
 * Unlike the source, which folds every failure into one boolean, these
 * definitions return which step failed; `Outcome.Success?` is the boolean.
 */
module Accounts {
  import opened PhpStrings
  import opened Username
  import opened PasswordHash

  /** A user configuration, the array `var_export`ed into `config.php`. */
  type Config = map<string, string>

  const LanguageKey := "language"
  const PasswordHashKey := "passwordHash"
  const ApiPasswordHashKey := "apiPasswordHash"
  const DefaultLanguage := "en"

  /** What the database layer holds for a registered account. */
  datatype Record = Record(language: string, defaultFeeds: bool)

  /** The persistent state both operations read and change. */
  datatype World = World(
    dirs: set<string>,               // user names whose data directory exists
    configs: map<string, Config>,    // user names whose config.php exists, with its contents
    records: map<string, Record>)    // accounts registered with the database layer

  datatype Outcome =
    | Success
    | InvalidUsername
    | DuplicateAccount
    | ConfigExists
    | HashingFailure
    | ConfigWriteFailure
    | StoreFailure
    | DefaultAccount
    | NoDirectory
    | RemovalFailure(recordRemoved: bool, dataRemoved: bool)

  datatype Step = Step(world: World, outcome: Outcome)

  /** What account creation learns from, and asks of, its environment. */
  datatype CreateHost = CreateHost(
    users: set<string>,       // listUsers()
    languages: set<string>,   // Minz_Translate::availableLanguages()
    mkdirOk: bool,            // mkdir($homeDir), whose result the source ignores
    writeOk: bool,            // file_put_contents succeeds, given the directory exists
    daoOk: bool)              // FreshRSS_UserDAO::createUser

  // ---------------------------------------------------------------------
  // The foreign effects, each on its own part of the world
  // ---------------------------------------------------------------------

  /** `if (!is_dir($homeDir)) mkdir($homeDir);` when `mkdir` succeeds. */
  function MakeDir(w: World, name: string, mkdirOk: bool): World {
    if name in w.dirs || !mkdirOk then w else w.(dirs := w.dirs + {name})
  }

  /** A successful `file_put_contents` of `config.php`. */
  function WriteConfig(w: World, name: string, conf: Config): World {
    w.(configs := w.configs[name := conf])
  }

  /** A successful `FreshRSS_UserDAO::createUser`. */
  function Register(w: World, name: string, record: Record): World {
    w.(records := w.records[name := record])
  }

  /** A successful `FreshRSS_UserDAO::deleteUser`. */
  function Unregister(w: World, name: string): World {
    w.(records := w.records - {name})
  }

  /** A successful `recursive_unlink` of the data directory, configuration included. */
  function RemoveData(w: World, name: string): World {
    w.(dirs := w.dirs - {name}, configs := w.configs - {name})
  }

  // ---------------------------------------------------------------------
  // Creation
  // ---------------------------------------------------------------------

  predicate RequestsLanguage(config: Config, languages: set<string>) {
    LanguageKey in config && !Falsy(config[LanguageKey]) && config[LanguageKey] in languages
  }

  /** The language a new account gets: the requested one if set and available, else English. */
  function ResolveLanguage(config: Config, languages: set<string>): (lang: string)
    ensures lang == DefaultLanguage || lang in languages
    ensures RequestsLanguage(config, languages) ==> lang == config[LanguageKey]
    ensures !RequestsLanguage(config, languages) ==> lang == DefaultLanguage
  {
    if RequestsLanguage(config, languages) then config[LanguageKey] else DefaultLanguage
  }

  /** `in_array(strtoupper($name), array_map('strtoupper', listUsers()))` */
  predicate IsExistingUser(name: string, users: set<string>) {
    exists u :: u in users && Upper(u) == Upper(name)
  }

  /** The configuration `createUser` writes for the caller-supplied one. */
  function NewConfig(config: Config, languages: set<string>, passwordHash: string, apiPasswordHash: string): (c: Config)
    ensures c.Keys == config.Keys + {LanguageKey, PasswordHashKey, ApiPasswordHashKey}
    ensures c[LanguageKey] == ResolveLanguage(config, languages)
    ensures c[PasswordHashKey] == passwordHash && c[ApiPasswordHashKey] == apiPasswordHash
    ensures forall k :: k in config && k != LanguageKey && k != PasswordHashKey && k != ApiPasswordHashKey ==> c[k] == config[k]
  {
    config[LanguageKey := ResolveLanguage(config, languages)]
          [PasswordHashKey := passwordHash]
          [ApiPasswordHashKey := apiPasswordHash]
  }

  /** The three checks that refuse a creation before anything happens. */
  predicate Admitted(w: World, name: string, users: set<string>) {
    CheckUsername(name) && !IsExistingUser(name, users) && name !in w.configs
  }

  /** Both credentials that were given hash to something non-empty. */
  predicate HashesSucceeded(passwordPlain: string, apiPasswordPlain: string, bcrypt: Bcrypt) {
    HashSucceeded(passwordPlain, bcrypt) && HashSucceeded(apiPasswordPlain, bcrypt)
  }

  /** `createUser`, stopping at the first failing step. */
  function Create(w: World, name: string, passwordPlain: string, apiPasswordPlain: string, config: Config,
                  insertDefaultFeeds: bool, host: CreateHost, bcrypt: Bcrypt): (res: Step)
    // the three refusals, in order, leave the world as it was
    ensures res.outcome == InvalidUsername <==> !CheckUsername(name)
    ensures res.outcome == DuplicateAccount <==> CheckUsername(name) && IsExistingUser(name, host.users)
    ensures res.outcome == ConfigExists <==>
              CheckUsername(name) && !IsExistingUser(name, host.users) && name in w.configs
    ensures !Admitted(w, name, host.users) ==> res.world == w
    // the later failures, each tied to the step that causes it
    ensures res.outcome == HashingFailure <==>
              Admitted(w, name, host.users) && !HashesSucceeded(passwordPlain, apiPasswordPlain, bcrypt)
    ensures res.outcome == ConfigWriteFailure <==>
              Admitted(w, name, host.users) && HashesSucceeded(passwordPlain, apiPasswordPlain, bcrypt) &&
              !(host.writeOk && (name in w.dirs || host.mkdirOk))
    ensures res.outcome == StoreFailure <==>
              Admitted(w, name, host.users) && HashesSucceeded(passwordPlain, apiPasswordPlain, bcrypt) &&
              host.writeOk && (name in w.dirs || host.mkdirOk) && !host.daoOk
    ensures res.outcome == HashingFailure ==> res.world == w
    // success exactly when every step succeeds
    ensures res.outcome == Success <==>
              Admitted(w, name, host.users) && HashesSucceeded(passwordPlain, apiPasswordPlain, bcrypt) &&
              (name in w.dirs || host.mkdirOk) && host.writeOk && host.daoOk
    // the directory is created only if absent, and only for this name
    ensures res.world.dirs == w.dirs || (name !in w.dirs && res.world.dirs == w.dirs + {name})
    // the only configuration written is this name's, with the resolved language and both hashes
    ensures res.world.configs == w.configs ||
              (Admitted(w, name, host.users) && name in res.world.dirs &&
               res.world.configs == w.configs[name := NewConfig(config, host.languages,
                 StoredHash(passwordPlain, bcrypt), StoredHash(apiPasswordPlain, bcrypt))])
    // the database layer is asked only after the write, with the resolved language
    ensures res.world.records == w.records ||
              (name in res.world.configs && res.world.configs != w.configs &&
               res.world.records == w.records[name := Record(ResolveLanguage(config, host.languages), insertDefaultFeeds)])
    // no rollback: a database failure keeps the directory and the configuration
    ensures res.outcome == StoreFailure ==>
              name in res.world.dirs && name in res.world.configs && res.world.records == w.records
    // once admitted with both hashes, the directory exists afterwards exactly when it did or mkdir succeeded
    ensures Admitted(w, name, host.users) && HashesSucceeded(passwordPlain, apiPasswordPlain, bcrypt) ==>
              (name in res.world.dirs <==> name in w.dirs || host.mkdirOk)
    // a write failure leaves configurations and registrations alone
    ensures res.outcome == ConfigWriteFailure ==> res.world.configs == w.configs && res.world.records == w.records
    // the configuration is in place after a database failure as after a success
    ensures res.outcome in {StoreFailure, Success} ==>
              res.world.configs == w.configs[name := NewConfig(config, host.languages,
                StoredHash(passwordPlain, bcrypt), StoredHash(apiPasswordPlain, bcrypt))]
    // a successful creation leaves the account in place: directory, configuration and registration
    ensures res.outcome == Success ==>
              name in res.world.dirs &&
              res.world.records == w.records[name := Record(ResolveLanguage(config, host.languages), insertDefaultFeeds)]
    ensures res.outcome != Success ==> res.world.records == w.records
  {
    if !CheckUsername(name) then Step(w, InvalidUsername)
    else if IsExistingUser(name, host.users) then Step(w, DuplicateAccount)
    else if name in w.configs then Step(w, ConfigExists)
    else if !HashesSucceeded(passwordPlain, apiPasswordPlain, bcrypt) then Step(w, HashingFailure)
    else
      var conf := NewConfig(config, host.languages, StoredHash(passwordPlain, bcrypt), StoredHash(apiPasswordPlain, bcrypt));
      var made := MakeDir(w, name, host.mkdirOk);
      if !(host.writeOk && name in made.dirs) then Step(made, ConfigWriteFailure)
      else
        var written := WriteConfig(made, name, conf);
        if !host.daoOk then Step(written, StoreFailure)
        else Step(Register(written, name, Record(conf[LanguageKey], insertDefaultFeeds)), Success)
  }

  // ---------------------------------------------------------------------
  // Deletion
  // ---------------------------------------------------------------------

  /** The three checks `deleteUser` makes before it removes anything. */
  predicate Deletable(w: World, name: string, defaultUser: string) {
    CheckUsername(name) && !CaseEqual(name, defaultUser) && name in w.dirs
  }

  /**
   * `deleteUser`: after the checks, the database removal and the recursive
   * removal of the data directory are both attempted, whatever the first returns.
   */
  function Delete(w: World, name: string, defaultUser: string, daoOk: bool, unlinkOk: bool): (res: Step)
    ensures res.outcome == InvalidUsername <==> !CheckUsername(name)
    ensures res.outcome == DefaultAccount <==> CheckUsername(name) && CaseEqual(name, defaultUser)
    ensures res.outcome == NoDirectory <==>
              CheckUsername(name) && !CaseEqual(name, defaultUser) && name !in w.dirs
    ensures !Deletable(w, name, defaultUser) ==> res.world == w
    ensures res.outcome == Success <==> Deletable(w, name, defaultUser) && daoOk && unlinkOk
    // other accounts are untouched
    ensures res.world.dirs - {name} == w.dirs - {name}
    ensures res.world.configs - {name} == w.configs - {name}
    ensures res.world.records - {name} == w.records - {name}
    // once the checks pass, each removal happens exactly when it succeeds
    ensures Deletable(w, name, defaultUser) ==>
              (name in res.world.records <==> name in w.records && !daoOk) &&
              (name in res.world.dirs <==> !unlinkOk) &&
              (name in res.world.configs <==> name in w.configs && !unlinkOk)
    // whatever survives keeps its contents
    ensures name in res.world.records ==> name in w.records && res.world.records[name] == w.records[name]
    ensures name in res.world.configs ==> name in w.configs && res.world.configs[name] == w.configs[name]
  {
    if !CheckUsername(name) then Step(w, InvalidUsername)
    else if CaseEqual(name, defaultUser) then Step(w, DefaultAccount)
    else if name !in w.dirs then Step(w, NoDirectory)
    else
      var unregistered := if daoOk then Unregister(w, name) else w;
      var removed := if unlinkOk then RemoveData(unregistered, name) else unregistered;
      Step(removed, if daoOk && unlinkOk then Success else RemovalFailure(daoOk, unlinkOk))
  }

  // ---------------------------------------------------------------------
  // Properties relating several calls
  // ---------------------------------------------------------------------

  /** Creating an account that did not exist and then deleting it restores the world. */
  lemma CreateThenDeleteRestores(w: World, name: string, passwordPlain: string, apiPasswordPlain: string,
                                 config: Config, insertDefaultFeeds: bool, host: CreateHost, bcrypt: Bcrypt,
                                 defaultUser: string)
    requires name !in w.dirs && name !in w.configs && name !in w.records
    requires Create(w, name, passwordPlain, apiPasswordPlain, config, insertDefaultFeeds, host, bcrypt).outcome == Success
    requires !CaseEqual(name, defaultUser)
    ensures Delete(Create(w, name, passwordPlain, apiPasswordPlain, config, insertDefaultFeeds, host, bcrypt).world,
                   name, defaultUser, true, true) == Step(w, Success)
  {
  }

  /**
   * After an account is created, any spelling of its name that differs only in
   * letter case is refused as a duplicate once `listUsers()` reports it.
   */
  lemma CaseVariantIsDuplicate(w: World, name: string, other: string, passwordPlain: string,
                               apiPasswordPlain: string, config: Config, insertDefaultFeeds: bool,
                               host: CreateHost, bcrypt: Bcrypt, host': CreateHost)
    requires Create(w, name, passwordPlain, apiPasswordPlain, config, insertDefaultFeeds, host, bcrypt).outcome == Success
    requires Upper(other) == Upper(name)
    requires name in host'.users
    ensures Create(Create(w, name, passwordPlain, apiPasswordPlain, config, insertDefaultFeeds, host, bcrypt).world,
                   other, passwordPlain, apiPasswordPlain, config, insertDefaultFeeds, host', bcrypt).outcome
            == DuplicateAccount
  {
    CheckUsernameIgnoresCase(name, other);
    assert IsExistingUser(other, host'.users);
  }

  /**
   * Without rollback, a creation that wrote the configuration but failed at the
   * database layer cannot be retried under the same name: the stray
   * configuration refuses it, and nothing changes.
   */
  lemma FailedRegistrationBlocksRetry(w: World, name: string, passwordPlain: string, apiPasswordPlain: string,
                                      config: Config, insertDefaultFeeds: bool, host: CreateHost, bcrypt: Bcrypt,
                                      host': CreateHost)
    requires Create(w, name, passwordPlain, apiPasswordPlain, config, insertDefaultFeeds, host, bcrypt).outcome == StoreFailure
    ensures var w' := Create(w, name, passwordPlain, apiPasswordPlain, config, insertDefaultFeeds, host, bcrypt).world;
            Create(w', name, passwordPlain, apiPasswordPlain, config, insertDefaultFeeds, host', bcrypt).outcome
            in {DuplicateAccount, ConfigExists}
  {
  }

  /** An account `createUser` made is one `deleteUser` will remove, unless it is the default account. */
  lemma CreatedAccountPassesDeletionChecks(w: World, name: string, passwordPlain: string, apiPasswordPlain: string,
                                           config: Config, insertDefaultFeeds: bool, host: CreateHost,
                                           bcrypt: Bcrypt, defaultUser: string)
    requires Create(w, name, passwordPlain, apiPasswordPlain, config, insertDefaultFeeds, host, bcrypt).outcome == Success
    ensures Deletable(Create(w, name, passwordPlain, apiPasswordPlain, config, insertDefaultFeeds, host, bcrypt).world,
                      name, defaultUser)
            <==> !CaseEqual(name, defaultUser)
  {
  }
}
