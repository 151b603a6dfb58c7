/**
 * `FreshRSS_user_Controller` itself: the state its static helpers and actions
 * change in place (the user directories, their configuration files, the
 * database registry and the session), and the actions' access decisions.
 * `CreateUser`, `DeleteUser`, `CreateAction` and `DeleteAction` run the
 * source's `$ok` accumulator step by step and are proved to end in the state
 * `Accounts.Create` and `Accounts.Delete` describe; `SetCredential` and
 * `ProfileAction` are proved to change the configuration as `SetHash` says.
 * The effect methods (`Mkdir`, `PutConfig`, `DaoCreateUser`, `DaoDeleteUser`,
 * `RecursiveUnlink`) each perform one foreign step on one field.
 */
module Controller {
  import opened Wrappers
  import opened PhpStrings
  import opened Username
  import opened PasswordHash
  import opened Accounts

  datatype Kind = Good | Bad

  /** What `Minz_Session::_param('notification', …)` and `Minz_Request::good/bad` store. */
  datatype Notification = Notification(kind: Kind, message: string, subject: string)

  /** Where `Minz_Request::forward` sends the browser. */
  datatype Target = ManageUsers | Index | Profile | Url(url: string)

  /** What an action ends with: the page is rendered, or the browser is forwarded. */
  datatype Response = Render | Forward(target: Target)

  /** The session user, with `'_'` standing for none as in `Minz_Session::param('currentUser', '_')`. */
  const NoUser := "_"

  // ---------------------------------------------------------------------
  // Access gates
  // ---------------------------------------------------------------------

  /** `firstAction`: anyone with access, or anyone creating an account while registrations are open. */
  predicate FirstActionAllows(hasAccess: bool, actionName: string, registrationsFull: bool) {
    hasAccess || (actionName == "create" && !registrationsFull)
  }

  /** The guard of `createAction`: a POST by an administrator, or while registrations are open. */
  predicate CreateActionProceeds(isPost: bool, isAdmin: bool, registrationsFull: bool) {
    isPost && (isAdmin || !registrationsFull)
  }

  /** `deleteAction` calls `deleteUser` only on a POST by an administrator or the user themself, and a self-deletion only with valid credentials. */
  predicate DeletionReached(isPost: bool, isAdmin: bool, isSelf: bool, credentialsOk: bool) {
    isPost && (isAdmin || isSelf) && (!isSelf || credentialsOk)
  }

  /** Being an administrator does not exempt a self-deletion from the credential check. */
  lemma SelfDeletionNeedsCredentials(isPost: bool, isAdmin: bool, credentialsOk: bool)
    ensures DeletionReached(isPost, isAdmin, true, credentialsOk) <==> isPost && credentialsOk
  {
  }

  /** `urldecode(Minz_Request::param('r', false, true))`, falling back to user management when falsy. */
  function RedirectTarget(r: string): Target {
    if Falsy(r) then ManageUsers else Url(r)
  }

  /** `$user_conf->key`, with a missing key read as `''`. */
  function Lookup(conf: Config, key: string): string {
    if key in conf then conf[key] else ""
  }

  /** What one credential block of `profileAction` does to the user configuration. */
  function SetHash(conf: Config, key: string, plain: string, bcrypt: Bcrypt): (c: Config)
    ensures plain == "" ==> c == conf
    ensures plain != "" ==> key in c && c[key] == HashPassword(plain, bcrypt)
    ensures forall k :: k != key ==> (k in c <==> k in conf)
    ensures forall k :: k in conf && k != key ==> c[k] == conf[k]
  {
    if plain == "" then conf else conf[key := HashPassword(plain, bcrypt)]
  }

  /** `$ok` at the end of `profileAction`: every attempted hash is non-empty and `save()` succeeded. */
  predicate ProfileSaved(newPasswordPlain: string, apiPasswordPlain: string, bcrypt: Bcrypt, saveOk: bool) {
    HashesSucceeded(newPasswordPlain, apiPasswordPlain, bcrypt) && saveOk
  }

  /** The notification an action stores: good with the success key, or bad with the failure key. */
  function Feedback(ok: bool, success: string, failure: string, subject: string): Notification {
    Notification(if ok then Good else Bad, if ok then success else failure, subject)
  }

  // ---------------------------------------------------------------------
  // The controller's state
  // ---------------------------------------------------------------------

  class Instance {
    var dirs: set<string>
    var configs: map<string, Config>
    var records: map<string, Record>
    var currentUser: Option<string>        // Minz_Session 'currentUser'
    var loggedIn: bool                     // FreshRSS_Auth access of this session
    var sessionPasswordHash: string        // Minz_Session 'passwordHash'
    var notification: Option<Notification> // Minz_Session 'notification'
    var userConf: Config                   // FreshRSS_Context::$user_conf

    /** The persistent part of the state. */
    function State(): World
      reads this
    {
      World(dirs, configs, records)
    }

    /** `Minz_Session::param('currentUser', '_')`: the session user, or `'_'` when there is none. */
    function SessionUser(): string
      reads this
    {
      match currentUser
      case Some(u) => u
      case None => NoUser
    }

    constructor (w: World, currentUser: Option<string>, loggedIn: bool, userConf: Config)
      ensures State() == w
      ensures this.currentUser == currentUser && this.loggedIn == loggedIn && this.userConf == userConf
      ensures sessionPasswordHash == "" && notification == None
    {
      dirs, configs, records := w.dirs, w.configs, w.records;
      this.currentUser, this.loggedIn, this.userConf := currentUser, loggedIn, userConf;
      sessionPasswordHash, notification := "", None;
    }

    /** `mkdir($homeDir)` for a missing directory; its result is not checked. */
    method Mkdir(name: string, mkdirOk: bool)
      requires name !in dirs
      modifies this`dirs
      ensures State() == MakeDir(old(State()), name, mkdirOk)
    {
      if mkdirOk {
        dirs := dirs + {name};
      }
    }

    /** `file_put_contents` of `config.php`, which cannot succeed without the directory. */
    method PutConfig(name: string, conf: Config, writeOk: bool) returns (written: bool)
      modifies this`configs
      ensures written <==> writeOk && name in old(dirs)
      ensures State() == if written then WriteConfig(old(State()), name, conf) else old(State())
    {
      written := writeOk && name in dirs;
      if written {
        configs := configs[name := conf];
      }
    }

    /** `FreshRSS_UserDAO::createUser`. */
    method DaoCreateUser(name: string, language: string, insertDefaultFeeds: bool, daoOk: bool)
      returns (registered: bool)
      modifies this`records
      ensures registered == daoOk
      ensures State() == if registered then Register(old(State()), name, Record(language, insertDefaultFeeds))
                         else old(State())
    {
      registered := daoOk;
      if registered {
        records := records[name := Record(language, insertDefaultFeeds)];
      }
    }

    /** `FreshRSS_UserDAO::deleteUser`. */
    method DaoDeleteUser(name: string, daoOk: bool) returns (removed: bool)
      modifies this`records
      ensures removed == daoOk
      ensures State() == if removed then Unregister(old(State()), name) else old(State())
    {
      removed := daoOk;
      if removed {
        records := records - {name};
      }
    }

    /** `recursive_unlink` of the user's data directory. */
    method RecursiveUnlink(name: string, unlinkOk: bool) returns (removed: bool)
      modifies this`dirs, this`configs
      ensures removed == unlinkOk
      ensures State() == if removed then RemoveData(old(State()), name) else old(State())
    {
      removed := unlinkOk;
      if removed {
        dirs := dirs - {name};
        configs := configs - {name};
      }
    }

    /**
     * The first block of `createUser`: the name's syntax, the language
     * fallback, uniqueness among listed users and absence of `config.php`.
     */
    method CheckNewUser(name: string, userConfig: Config, host: CreateHost) returns (ok: bool, conf: Config)
      ensures ok <==> Admitted(State(), name, host.users)
      ensures ok ==> conf == userConfig[LanguageKey := ResolveLanguage(userConfig, host.languages)]
    {
      conf := userConfig;
      ok := CheckUsername(name);
      if ok {
        if !RequestsLanguage(conf, host.languages) {
          conf := conf[LanguageKey := DefaultLanguage];
        }
        ok := ok && !IsExistingUser(name, host.users);
        ok := ok && name !in configs;
      }
    }

    /** The second block of `createUser`: hash each credential that was given, the second even if the first failed. */
    static method HashCredentials(passwordPlain: string, apiPasswordPlain: string, bcrypt: Bcrypt)
      returns (ok: bool, passwordHash: string, apiPasswordHash: string)
      ensures ok <==> HashesSucceeded(passwordPlain, apiPasswordPlain, bcrypt)
      ensures passwordPlain == "" ==> passwordHash == ""
      ensures passwordPlain != "" ==> passwordHash == HashPassword(passwordPlain, bcrypt)
      ensures apiPasswordPlain == "" ==> apiPasswordHash == ""
      ensures apiPasswordPlain != "" ==> apiPasswordHash == HashPassword(apiPasswordPlain, bcrypt)
    {
      ok := true;
      passwordHash := "";
      if passwordPlain != "" {
        passwordHash := HashPassword(passwordPlain, bcrypt);
        ok := ok && passwordHash != "";
      }
      apiPasswordHash := "";
      if apiPasswordPlain != "" {
        apiPasswordHash := HashPassword(apiPasswordPlain, bcrypt);
        ok := ok && apiPasswordHash != "";
      }
    }

    /** `createUser`: the `$ok` accumulator through its four guarded blocks. */
    method CreateUser(name: string, passwordPlain: string, apiPasswordPlain: string, userConfig: Config,
                      insertDefaultFeeds: bool, host: CreateHost, bcrypt: Bcrypt) returns (ok: bool)
      modifies this`dirs, this`configs, this`records
      ensures State() == Create(old(State()), name, passwordPlain, apiPasswordPlain, userConfig,
                                insertDefaultFeeds, host, bcrypt).world
      ensures ok <==> Create(old(State()), name, passwordPlain, apiPasswordPlain, userConfig,
                             insertDefaultFeeds, host, bcrypt).outcome == Success
    {
      ghost var w := State();
      var conf;
      ok, conf := CheckNewUser(name, userConfig, host);
      var passwordHash, apiPasswordHash := "", "";
      if ok {
        ok, passwordHash, apiPasswordHash := HashCredentials(passwordPlain, apiPasswordPlain, bcrypt);
      }
      if ok {
        if name !in dirs {
          Mkdir(name, host.mkdirOk);
        }
        conf := conf[PasswordHashKey := passwordHash][ApiPasswordHashKey := apiPasswordHash];
        assert conf == NewConfig(userConfig, host.languages, passwordHash, apiPasswordHash);
        var written := PutConfig(name, conf, host.writeOk);
        ok := ok && written;
      }
      if ok {
        var registered := DaoCreateUser(name, conf[LanguageKey], insertDefaultFeeds, host.daoOk);
        ok := ok && registered;
      }
    }

    /** `deleteUser`: three checks, then both removals, each attempted whatever the other returns. */
    method DeleteUser(name: string, defaultUser: string, daoOk: bool, unlinkOk: bool) returns (ok: bool)
      modifies this`dirs, this`configs, this`records
      ensures State() == Delete(old(State()), name, defaultUser, daoOk, unlinkOk).world
      ensures ok <==> Delete(old(State()), name, defaultUser, daoOk, unlinkOk).outcome == Success
    {
      ok := CheckUsername(name);
      if ok {
        ok := ok && !CaseEqual(name, defaultUser);
      }
      if ok {
        ok := ok && name in dirs;
      }
      if ok {
        var recordRemoved := DaoDeleteUser(name, daoOk);
        var dataRemoved := RecursiveUnlink(name, unlinkOk);
        ok := ok && recordRemoved && dataRemoved;
      }
    }

    /**
     * One credential block of `profileAction`: a non-empty plaintext replaces
     * the stored hash by `hashPassword`'s result, even an empty one.
     */
    method SetCredential(key: string, plain: string, bcrypt: Bcrypt) returns (ok: bool)
      modifies this`userConf
      ensures ok <==> HashSucceeded(plain, bcrypt)
      ensures userConf == SetHash(old(userConf), key, plain, bcrypt)
    {
      ok := true;
      if plain != "" {
        var passwordHash := HashPassword(plain, bcrypt);
        ok := ok && passwordHash != "";
        userConf := userConf[key := passwordHash];
      }
    }

    /** `profileAction` on the two credential fields of the current user's configuration. */
    method ProfileAction(isPost: bool, newPasswordPlain: string, apiPasswordPlain: string, bcrypt: Bcrypt,
                         saveOk: bool) returns (response: Response)
      modifies this`userConf, this`sessionPasswordHash, this`configs, this`notification
      ensures !isPost ==> response == Render && unchanged(this)
      ensures isPost ==> response == Forward(Profile)
      ensures isPost ==> userConf == SetHash(SetHash(old(userConf), PasswordHashKey, newPasswordPlain, bcrypt),
                                             ApiPasswordHashKey, apiPasswordPlain, bcrypt)
      ensures isPost ==> sessionPasswordHash == Lookup(userConf, PasswordHashKey)
      ensures isPost ==> configs == if saveOk then old(configs)[SessionUser() := userConf] else old(configs)
      ensures isPost ==> notification == Some(Feedback(ProfileSaved(newPasswordPlain, apiPasswordPlain, bcrypt, saveOk),
                                                       "feedback.profile.updated", "feedback.profile.error", ""))
    {
      if !isPost {
        return Render;
      }
      var ok := SetCredential(PasswordHashKey, newPasswordPlain, bcrypt);
      sessionPasswordHash := Lookup(userConf, PasswordHashKey);
      var apiOk := SetCredential(ApiPasswordHashKey, apiPasswordPlain, bcrypt);
      ok := ok && apiOk;
      // save() is attempted whatever the hashes gave
      var saved := saveOk;
      if saved {
        configs := configs[SessionUser() := userConf];
      }
      ok := ok && saved;
      notification := Some(Feedback(ok, "feedback.profile.updated", "feedback.profile.error", ""));
      response := Forward(Profile);
    }

    /** `createAction`: one account from the request, with no API password and default feeds. */
    method CreateAction(isPost: bool, isAdmin: bool, registrationsFull: bool, newUserName: string,
                        passwordPlain: string, languageParam: Option<string>, redirectParam: string,
                        host: CreateHost, bcrypt: Bcrypt) returns (response: Response)
      modifies this`dirs, this`configs, this`records, this`notification
      ensures response == Forward(RedirectTarget(redirectParam))
      ensures !CreateActionProceeds(isPost, isAdmin, registrationsFull) ==> unchanged(this)
      ensures CreateActionProceeds(isPost, isAdmin, registrationsFull) ==>
                var language := if languageParam.Some? then languageParam.value else Lookup(old(userConf), LanguageKey);
                var step := Create(old(State()), newUserName, passwordPlain, "", map[LanguageKey := language],
                                   true, host, bcrypt);
                State() == step.world &&
                notification == Some(Feedback(step.outcome == Success, "feedback.user.created",
                                              "feedback.user.created.error", newUserName))
    {
      if CreateActionProceeds(isPost, isAdmin, registrationsFull) {
        var language := if languageParam.Some? then languageParam.value else Lookup(userConf, LanguageKey);
        var ok := CreateUser(newUserName, passwordPlain, "", map[LanguageKey := language], true, host, bcrypt);
        notification := Some(Feedback(ok, "feedback.user.created", "feedback.user.created.error", newUserName));
      }
      response := Forward(RedirectTarget(redirectParam));
    }

    /** `deleteAction`: the authorisation, the credential check of a self-deletion, and its aftermath. */
    method DeleteAction(isPost: bool, isAdmin: bool, username: string, redirectParam: string,
                        credentialsOk: bool, defaultUser: string, daoOk: bool, unlinkOk: bool)
      returns (response: Response)
      modifies this`dirs, this`configs, this`records, this`loggedIn, this`notification
      ensures var isSelf := old(SessionUser()) == username;
              var reached := DeletionReached(isPost, isAdmin, isSelf, credentialsOk);
              var step := Delete(old(State()), username, defaultUser, daoOk, unlinkOk);
              var ok := reached && step.outcome == Success;
              State() == (if reached then step.world else old(State())) &&
              (loggedIn <==> old(loggedIn) && !(ok && isSelf)) &&
              response == Forward(if ok && isSelf then Index else RedirectTarget(redirectParam)) &&
              notification == (if isPost && (isAdmin || isSelf)
                               then Some(Feedback(ok, "feedback.user.deleted", "feedback.user.deleted.error", username))
                               else old(notification))
    {
      var redirect := RedirectTarget(redirectParam);
      var selfDeletion := SessionUser() == username;
      if isPost && (isAdmin || selfDeletion) {
        var ok := true;
        if ok && selfDeletion {
          ok := ok && credentialsOk;
        }
        if ok {
          var deleted := DeleteUser(username, defaultUser, daoOk, unlinkOk);
          ok := ok && deleted;
        }
        if ok && selfDeletion {
          loggedIn := false;    // FreshRSS_Auth::removeAccess()
          redirect := Index;
        }
        notification := Some(Feedback(ok, "feedback.user.deleted", "feedback.user.deleted.error", username));
      }
      response := Forward(redirect);
    }
  }
}
