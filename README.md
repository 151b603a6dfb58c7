# FreshRSS user accounts, modelled in Dafny

A model of the account-lifecycle logic in FreshRSS's user controller
(`FreshRSS_user_Controller`). It covers the username check, the bcrypt tag
rewrite in `hashPassword`, account creation (`createUser`), account deletion
(`deleteUser`), and the decisions of `profileAction`, `createAction`,
`deleteAction` and `firstAction`.

Modules, leaves first:

- `Wrappers`: `Option`, which stands for PHP's `false`/`null` results.
- `PhpStrings`: ASCII `strtoupper`, `strcasecmp` equality, and PHP string truthiness (`''` and `'0'` are false).
- `Username`: two things.
  - `preg_match` of `USERNAME_PATTERN` written as PCRE search semantics (`PatternMatches`).
  - The executable `CheckUsername`, proved equal to it.
  
  It also has the full-string language the doc comment describes (`IntendedUsername`).
- `PasswordHash`: the `$2x$`/`$2y$` → `$2a$` rewrite and `hashPassword`. The bcrypt primitive is a function parameter.
- `Accounts`: a `World` of user directories, `config.php` contents and database-layer registrations. Over it sit the reference definitions `Create` and `Delete`, which return the resulting world and an outcome naming what failed. `Create` stops at the first failing step. `Delete` stops at the first failing check and then attempts both removals.
- `Controller`: the class `Instance`.
  - Its fields are the directories, configurations and registrations, plus the session: current user, access, stored password hash, notification, and the current user's configuration.
  - Its methods run the source's `$ok` accumulator step by step.
  - `CreateUser`, `DeleteUser`, `CreateAction` and `DeleteAction` are proved to end in the state `Create`/`Delete` describe.
  - `ProfileAction` and `SetCredential` are proved to change the configuration as `SetHash` describes.

## Where the code differs from its doc comment

- **The username pattern has no group.** The code matches `/^[0-9a-zA-Z]|[0-9a-zA-Z_]{2,38}$/`. PCRE reads that as `^[0-9a-zA-Z]` *or* `[0-9a-zA-Z_]{2,38}$`, so a name passes if it:
  - starts with an alphanumeric, or
  - ends with two word characters, optionally followed by one final `"\n"` (`$` without the `D` modifier).
  
  So `"a b"`, `"../x_y"` and `"ab\n"` are accepted, although the `^…$` wrapper of line 44 evidently means to anchor the whole name, and the doc comment of lines 37-40 says the name becomes a folder name, a file name and part of an SQL table name. The model follows the code:
  - `CheckUsernameIsPatternSearch` proves the executable check equals the regex search.
  - `IntendedImpliesPatternMatches` proves that every name of the intended full-match language passes.
  - `AcceptedButNotIntended` shows the converse fails.
- **No early exit between paired steps.** Creation does not stop at the first failed hash: both hashes are computed before `$ok` is tested (lines 131-143). Deletion attempts both removals whatever the database removal returned (lines 213-215). The methods do the same.
- **`mkdir`'s result is ignored.** A failed `mkdir` shows up only as a failed `file_put_contents`. Input `mkdirOk` decides the directory. The write can succeed only when the directory exists.

## Model

| member | source | states |
|---|---|---|
| `Username.CheckUsername` | app/Controllers/userController.php:43-45 | the executable form of the check: the name starts with an alphanumeric, or ends with two word characters optionally followed by one final `"\n"` |
| `Username.PatternMatches` | app/Controllers/userController.php:44 | `preg_match` of the pattern as PCRE reads it: some position where `^[0-9a-zA-Z]` matches, or where 2 to 38 word characters are followed by the end of the string or by a final `"\n"` |
| `Username.IntendedUsername` | app/Controllers/userController.php:41-44 | the whole-name format the `^…$` wrapping of the pattern evidently aims at: one alphanumeric, or 2 to 38 characters of `[0-9a-zA-Z_]` and nothing else |
| `Username.CheckUsernameIsPatternSearch` | app/Controllers/userController.php:41-45 | `checkUsername` accepts a name exactly when the unanchored-alternation regex finds a match: the name starts with an alphanumeric, or ends with two `[0-9a-zA-Z_]` characters, optionally followed by one final newline |
| `Username.IntendedImpliesPatternMatches` | app/Controllers/userController.php:37-44 | every name in the intended whole-name language (one alphanumeric, or 2–38 word characters and nothing else) matches the pattern as written |
| `Username.IntendedImpliesAccepted` | app/Controllers/userController.php:37-45 | hence every such name passes `checkUsername` |
| `Username.AcceptedButNotIntended` | app/Controllers/userController.php:41-44 | the converse is false: `"a b"`, `"../x_y"`, `"ab\n"` and `"a /"` pass the check but are outside the intended language |
| `Username.CheckUsernameExamples` | app/Controllers/userController.php:41-45 | `''`, `'_'`, `'_\n'` and `'-'` are rejected; `'a'`, `'ab'` and `'_ab'` are accepted |
| `Username.SingleCharacterNames` | app/Controllers/userController.php:41-45 | a one-character name passes exactly when it is alphanumeric |
| `Username.CheckUsernameIgnoresCase` | app/Controllers/userController.php:41-45 | two names equal under `strtoupper` are both accepted or both rejected |
| `PhpStrings.Upper` | app/Controllers/userController.php:126 | `strtoupper`: every ASCII lower-case letter raised to upper case, every other character kept |
| `PhpStrings.CaseEqual` | app/Controllers/userController.php:206 | `strcasecmp(a, b) === 0`: the two names are equal once ASCII letters are lowered |
| `PhpStrings.Falsy` | app/Controllers/userController.php:122 | a string PHP's `empty()` and `!` treat as false: exactly `''` and `'0'` (also used for `r` at line 193) |
| `PhpStrings.UpperCharIffLowerChar` | app/Controllers/userController.php:206 | two characters agree after ASCII upper-casing exactly when they agree after lower-casing |
| `PhpStrings.UpperEqualIffCaseEqual` | app/Controllers/userController.php:206 | `strcasecmp(a, b) === 0` holds exactly when `strtoupper(a) === strtoupper(b)`, so the duplicate test of line 126 and the default-account test identify the same names |
| `PasswordHash.NormalizeTag` | app/Controllers/userController.php:33 | the result never starts with `$2x$` or `$2y$`; such a prefix becomes `$2a$` with length and all later characters unchanged; any other string passes through unchanged |
| `PasswordHash.NormalizeTagIdempotent` | app/Controllers/userController.php:33 | rewriting twice equals rewriting once |
| `PasswordHash.HasVariantTag` | app/Controllers/userController.php:33 | the subject starts with `$2x$` or `$2y$`, what the anchored pattern `/^\$2[xy]\$/` matches |
| `PasswordHash.StoredHash` | app/Controllers/userController.php:132-142 | the hash stored for one credential: `''` when no plaintext was given, otherwise `hashPassword`'s result |
| `PasswordHash.HashSucceeded` | app/Controllers/userController.php:133-136 | one credential's contribution to `$ok`: an empty plaintext is not a failure; a given one fails exactly when its hash is `''` |
| `PasswordHash.AsString` | app/Controllers/userController.php:31-34 | a `false`/`null` from `password_hash` reads as `''` in the comparison of line 34, a string result as itself |
| `PasswordHash.HashPassword` | app/Controllers/userController.php:27-35 | the result is `''` exactly when the primitive failed or returned `''`; otherwise it is the primitive's output with its tag rewritten; it never carries a `$2x$`/`$2y$` tag |
| `Accounts.ResolveLanguage` | app/Controllers/userController.php:121-124 | the new account's language is the requested one when it is set, not PHP-empty and available, and `'en'` otherwise; it is always `'en'` or an available language |
| `Accounts.IsExistingUser` | app/Controllers/userController.php:126 | the duplicate test: some name that `listUsers()` reports has the same `strtoupper` as the new name |
| `Accounts.RequestsLanguage` | app/Controllers/userController.php:122 | the requested language is kept exactly when it is present, not PHP-empty, and available |
| `Accounts.Admitted` | app/Controllers/userController.php:117-130 | the first block's `$ok`: the name passes `checkUsername`, is not a case-insensitive duplicate, and has no `config.php` |
| `Accounts.HashesSucceeded` | app/Controllers/userController.php:131-143 | the second block's `$ok`: each given credential hashes to a non-empty string |
| `Accounts.MakeDir` | app/Controllers/userController.php:145-147 | `mkdir` runs only for an absent directory and adds it only when it succeeds |
| `Accounts.WriteConfig` | app/Controllers/userController.php:150 | a successful `file_put_contents` stores this name's configuration and nothing else |
| `Accounts.Register` | app/Controllers/userController.php:154 | a successful `FreshRSS_UserDAO::createUser` records this name's language and default-feeds flag |
| `Accounts.Unregister` | app/Controllers/userController.php:214 | a successful `FreshRSS_UserDAO::deleteUser` drops this name's registration |
| `Accounts.RemoveData` | app/Controllers/userController.php:215 | a successful `recursive_unlink` drops this name's directory together with its `config.php` |
| `Accounts.Deletable` | app/Controllers/userController.php:203-211 | the three checks of `deleteUser`: a valid name, not the default user under `strcasecmp`, and an existing data directory |
| `Accounts.NewConfig` | app/Controllers/userController.php:121-150 | the written configuration has the caller's keys plus `language`, `passwordHash` and `apiPasswordHash`; it carries the resolved language and the two given hashes, and keeps every other caller-supplied entry |
| `Accounts.Create` | app/Controllers/userController.php:112-157 | see the list after this table |
| `Accounts.Delete` | app/Controllers/userController.php:199-218 | see the list after this table |
| `Accounts.CreateThenDeleteRestores` | app/Controllers/userController.php:112-218 | creating an account that did not exist, then deleting it with both removals succeeding, gives back the original world and reports success |
| `Accounts.CaseVariantIsDuplicate` | app/Controllers/userController.php:126 | after `"Alice"` is created, creating any case variant such as `"alice"` fails as a duplicate once `listUsers()` reports `"Alice"` |
| `Accounts.FailedRegistrationBlocksRetry` | app/Controllers/userController.php:128-155 | no rollback: after a database failure, retrying the same name is refused, because the stray `config.php` remains |
| `Accounts.CreatedAccountPassesDeletionChecks` | app/Controllers/userController.php:203-210 | a freshly created account passes all three deletion checks unless it is, case-insensitively, the default user |
| `Controller.FirstActionAllows` | app/Controllers/userController.php:18-25 | `firstAction` lets a request through exactly when the visitor has access, or the action is `create` and registrations are not full; otherwise the source raises a 403 |
| `Controller.CreateActionProceeds` | app/Controllers/userController.php:172-175 | `createAction` creates an account exactly on a POST by an administrator, or on any POST while registrations are not full |
| `Controller.DeletionReached` | app/Controllers/userController.php:237-253 | `deleteAction` calls `deleteUser` exactly on a POST by an administrator or by the session user, where a self-deletion also needs `checkCredentials` to succeed |
| `Controller.SelfDeletionNeedsCredentials` | app/Controllers/userController.php:235-254 | a self-deletion reaches `deleteUser` exactly on a POST whose credentials check out, even for an administrator |
| `Controller.RedirectTarget` | app/Controllers/userController.php:192-195 | a falsy url-decoded `r` parameter (`''` or `'0'`) forwards to user management; any other value forwards to that URL |
| `Controller.Instance.SessionUser` | app/Controllers/userController.php:235 | the session's current user, read with the default `'_'` when none is set; `deleteAction` compares it with `===` to the requested name to decide self-deletion |
| `Controller.Lookup` | app/Controllers/userController.php:178 | reading a key of the user configuration (`$user_conf->language` here, `->passwordHash` at line 68), with a missing key read as `''` |
| `Controller.ProfileSaved` | app/Controllers/userController.php:58-79 | `profileAction`'s final `$ok`: every given credential hashed to a non-empty string and `save()` succeeded |
| `Controller.Feedback` | app/Controllers/userController.php:185-189 | the notification an action stores: type good with the success message, or bad with the failure message (also lines 79-85 and 261-265) |
| `Controller.SetHash` | app/Controllers/userController.php:61-75 | an empty plaintext leaves the configuration unchanged; a non-empty one sets the key to `hashPassword`'s result, even `''`; no other key changes |
| `Controller.Instance.Mkdir` | app/Controllers/userController.php:145-147 | a missing directory is created when `mkdir` succeeds, and nothing else changes |
| `Controller.Instance.PutConfig` | app/Controllers/userController.php:150 | the configuration is written, and the write reports success, exactly when writing succeeds and the directory exists |
| `Controller.Instance.DaoCreateUser` | app/Controllers/userController.php:153-154 | a successful database registration records the account with its language and default-feeds flag |
| `Controller.Instance.DaoDeleteUser` | app/Controllers/userController.php:213-214 | a successful database removal drops the account's registration |
| `Controller.Instance.RecursiveUnlink` | app/Controllers/userController.php:215 | a successful recursive removal drops the directory and its configuration |
| `Controller.Instance.CheckNewUser` | app/Controllers/userController.php:117-130 | the first block's `$ok` holds exactly when the name is valid, not a case-insensitive duplicate, and has no `config.php`; the configuration then carries the resolved language |
| `Controller.Instance.HashCredentials` | app/Controllers/userController.php:131-143 | each given credential is hashed and each missing one stays `''`; `$ok` holds exactly when every attempted hash is non-empty |
| `Controller.Instance.CreateUser` | app/Controllers/userController.php:112-157 | the accumulator method ends in the world `Accounts.Create` describes and returns true exactly when that reports success |
| `Controller.Instance.DeleteUser` | app/Controllers/userController.php:199-218 | the accumulator method ends in the world `Accounts.Delete` describes and returns true exactly when that reports success |
| `Controller.Instance.SetCredential` | app/Controllers/userController.php:61-75 | one credential block of the profile update changes the configuration as `SetHash` says; it succeeds unless a given plaintext hashed to `''` |
| `Controller.Instance.ProfileAction` | app/Controllers/userController.php:57-86 | see the list after this table |
| `Controller.Instance.CreateAction` | app/Controllers/userController.php:171-197 | see the list after this table |
| `Controller.Instance.DeleteAction` | app/Controllers/userController.php:228-269 | see the list after this table |

Properties of the six members marked "see the list" above:

- `Accounts.Create`:
  - An invalid name is rejected without touching the world. So is a case-insensitive duplicate, and so is a name whose `config.php` exists.
  - Each later failure is tied to its cause, both ways. A hashing failure means the checks passed and some given credential hashed to `''`. A write failure means the hashes succeeded but the write failed or the directory is missing. A database failure means everything up to the write succeeded.
  - It succeeds exactly when all of these succeed: every check, both hashes, the directory (existing or made), the config write and the database registration.
  - `mkdir` runs only when the directory is absent. Once the checks and hashes pass, the directory exists afterwards exactly when it existed before or `mkdir` succeeded.
  - The only configuration written is this name's, as `NewConfig` builds it. A failed write leaves configurations and registrations as they were.
  - The database layer is asked only after the write succeeded, and with the resolved language. Registrations change only on success.
  - After a success, the account has its directory, its `NewConfig` configuration and its registration with the resolved language and the default-feeds flag.
  - A database failure leaves the directory and the `NewConfig` configuration in place.
- `Accounts.Delete`:
  - The world is not touched when the name is invalid, when it equals the default user case-insensitively, or when its data directory is missing.
  - Once these checks pass, each of the two removals takes effect exactly when it succeeds, whatever the other one does.
  - It succeeds exactly when both removals succeed. Other accounts are untouched.
  - A registration or configuration that survives keeps its contents.
- `Controller.Instance.ProfileAction`:
  - Off POST, nothing changes.
  - On POST, each credential updates the configuration as `SetHash` says.
  - The session keeps the resulting password hash.
  - `save()` is always attempted. It writes the configuration back when it succeeds.
  - The notification is good exactly when every attempted hash is non-empty and the save succeeded.
- `Controller.Instance.CreateAction`:
  - Off the guard, nothing changes.
  - Otherwise the world becomes that of `Create` for the request: the requested language, or the current user's; no API password; default feeds.
  - The notification reports `Create`'s success.
  - It always forwards to `RedirectTarget(r)`.
- `Controller.Instance.DeleteAction`:
  - The world changes only when `DeletionReached`: a POST by an administrator or by the session user (an exact, case-sensitive match that defaults to `'_'`), where a self-deletion also needs valid credentials. It then changes as `Delete` describes.
  - Access is removed, and the redirect goes to the index page, exactly after a successful self-deletion.
  - A notification is set exactly when the POST is authorised.

## Left out

- The bcrypt primitive (`password_hash`, the `password_compat.php` fallback, cost 9) is foreign cryptography. It is the parameter `bcrypt`, a function of plaintext and cost that may fail or return `''`. Its salt is random, so two calls with the same plaintext may differ in reality; the model does not capture that.
- `FreshRSS_FormAuth::checkCredentials`, the challenge–response scheme behind self-deletion, is not part of this model. Its verdict is the input `credentialsOk`.
- `listUsers`, `Minz_Translate::availableLanguages`, `max_registrations_reached` and `FreshRSS_Auth::hasAccess` are foreign. They are inputs.
- `mkdir`, `file_put_contents`, `is_dir`, `file_exists`, `recursive_unlink` and `FreshRSS_UserDAO` are abstracted as sets and maps keyed by user name, with success inputs. The `require_once` of the install SQL (line 201) has no counterpart.
- Paths are not modelled. Two names that resolve to the same directory (possible because `checkUsername` admits `/` and `.`) are distinct keys in the model.
- A failed database call or a failed `recursive_unlink` changes nothing in the model. Partial removals of tables or files are not represented.
- Recursive removal takes the configuration and the directory together. Other files in the user directory are not modelled.
- The `var_export` file format is not modelled: a configuration is a map from string keys to string values. Non-string values, and the `is_array($userConfig)` fallback, have no counterpart.
- PHP loose typing is reduced to booleans and strings: `&=` yielding integers, `in_array`'s loose comparison of numeric strings, and non-string request parameters. PHP's `empty()` and `!$x` on strings are modelled as true for `''` and `'0'`.
- `strtoupper` and `strcasecmp` are ASCII-only, as from PHP 8.2. Locale-dependent case mapping is not modelled.
- Character classes apply to Dafny characters. PHP matches bytes without the `u` modifier, but no byte of a multi-byte character falls into `[0-9a-zA-Z_]`, so acceptance is the same.
- `FreshRSS_Auth::removeAccess` is not shown. It is modelled only as the session losing access; its other effects on the session are not represented.
- `profileAction`'s save writes the in-memory configuration to the session user's entry. How `Minz_Configuration::save` locates its file is not modelled.
- Wiping plaintext passwords (`$passwordPlain = ''`, `Minz_Request::_param`, `$_POST` overwrites) has no observable effect in a value model and is left out.
- View, URL, title, script and translation plumbing is left out: `Minz_View`, `Minz_Url`, `_t`, `invalidateHttpCache` and the `bcrypt.min.js` script. Notifications carry translation keys rather than translated text.
- Each call runs without interference from other requests. Races between the checks of lines 126-129 and the writes of lines 146-154, where two concurrent creations of the same name could both pass the checks, are not represented.
- `manageAction` (entry count, storage size, choice of the displayed user) is UI and I/O with no logic to verify.
- `Minz_Error::error(403)` is not modelled as a response. `firstAction` is modelled only as the decision `FirstActionAllows`.
