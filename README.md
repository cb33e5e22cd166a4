# PyBaseUtils SQL Server tooling, modelled in Dafny

PyBaseUtils is a Python utility collection whose centre is a set of tools for SQL
Server databases. It finds objects that differ between two databases, scripts objects
to files with `mssql-scripter`, backs a database up into one folder per object type,
and deploys objects from one database to another through a git working copy. Around
these sit helpers that generate and parse SQL text, string helpers, configuration
lookups and task-state bookkeeping.

This project models that code and proves properties of the model. There is one Dafny
module per Python source file:

- `DatabaseSql`, `MssqlScripter`, `DatabaseCompare` model `DatabaseUtils/Database.py`:
  - the script-file reader and the `IN (...)` list generator;
  - the object-inventory query;
  - the `mssql-scripter` argument builder and command assembly;
  - the existence check and `script_objects`;
  - the catalog comparison query.
- `DatabaseBackup` models `DatabaseUtils/MssqlUtils/DatabaseBackup.py`:
  - the backup path setter;
  - the object-type→folder map;
  - the per-folder, 'other' and full-backup commands;
  - the last-run log scan and the changed-objects query.
- `DatabaseDeployment` models `DatabaseUtils/DatabaseDeployment.py`: construction-time validation, then the fixed sequence hard reset → scripting → commit/push → execution, which stops at the first failing step.
- `DbRestore` models `bin/db_restore.py`: the partition of comparison rows into objects to create and objects to modify, and the scripting calls that follow.
- `MssqlObjects` models `DatabaseUtils/MssqlUtils/mssql_objects/MssqlObjects.py`: bracket quoting, object names, columns and CREATE TABLE text.
- `MssqlUtilsDatabase` models `DatabaseUtils/MssqlUtils/Database.py`: boolean parsing, the backup-folder collection and its folder order, and the USE-stripping script reader.
- `EtlUtil` models `EtlUtils/EtlUtil.py`: the INSERT and CREATE TABLE serialiser with its quote escaping, and the `DataImport` batch generators.
- `Sqlite3` models `DatabaseUtils/Sqlite3Database.py`: the `;` statement splitter, and the initialisation and script-execution sequences, which continue after a failed statement.
- `StringUtil`, `Validator`, `ConfigUtil`, `DirectoryCollection`, `TaskUtil`, `TaskUtils`, `MssqlUtilsConfig` (`DatabaseUtils/MssqlUtils/Config.py`) and `DatabaseUtilsConfig` (`DatabaseUtils/Config.py`) model the helper files of the same names.
- Three modules are shared:
  - `Wrappers` holds `Option`, `Result` and the Python exception kinds.
  - `PyStr` holds the Python `str` built-ins the code relies on: `strip`, `lower`, `split`, `join`, `startswith`, `in`, the POSIX form of `os.path.join` and `split`, and an `abspath` that joins a relative path onto the working directory without normalising it.
  - `Shell` models `subprocess.check_output`. Each command appends its argument list to a trace kept by a `Runner`. An oracle, which may depend on every earlier command, gives the exit code and the output.

Where the Python code mutates objects, the model does too:

- Setters, path fields and accumulated lists are fields of Dafny classes.
- Loops are `while` and `for` loops with invariants.
- Each method is proved against a specification function.
- Lemmas state what those functions promise.

Much of the code does not do what its names or comments suggest. The model follows the
code as written, and the lemmas state the consequences. For example:

- `get_quoted_name` never adds brackets.
- A nullable column is emitted as NOT NULL.
- The comparison's hash test matches a definition anywhere in the other database, not the one with the same name.
- The backup path setter is not idempotent.

The code as written also behaves as follows, and so does the model:

- The comparison lists 'hash' rows before 'not exists' rows, because it orders by CompareType.
- The hash test is not per name.
- No duplicate-name warning is raised.
- No modification-time shortcut is taken.
- No last-run marker is written; the last run is whatever the log holds.
- The push runs inside the commit step, unconditionally.
- Scripts are executed in directory-listing order.
- A bracketed requested name such as '[dbo].[X]' never matches a file name.

## Model

| member | source | states |
|---|---|---|
| StringUtil.DigitsValueLeadingZero | StringUtil.py:9-12 | leading zeros do not change the value `int()` gives a digit string |
| StringUtil.DecimalStringValue | ConfigUtil.py:116-119 | the decimal text `str()` writes for a non-negative int is numeric, and `int()` gives the number back |
| StringUtil.GetBooleanFromString | StringUtil.py:6-24 | True exactly for a numeric string worth 1 or a text that is 'true' after trimming and lower-casing; False exactly for one worth 0 or 'false'; None for every other value, including other numbers |
| StringUtil.NumericIsNormal | StringUtil.py:9-17 | a numeric string is unchanged by trimming and lower-casing, so it is never 'true' or 'false' |
| StringUtil.GetBooleanZeroPadded | StringUtil.py:9-13 | any number of zeros before '1' or '0' still gives True or False |
| StringUtil.ZeroPaddedDigit | StringUtil.py:9-10 | a digit after zeros is numeric and has the digit's value |
| StringUtil.GetBooleanPaddedDigit | StringUtil.py:9-24 | the numeric test runs before trimming, so ' 1' gives None |
| StringUtil.NormOfSpaceDigit | StringUtil.py:9-17 | a space before a digit makes the text non-numeric, and trimming leaves the digit |
| StringUtil.GetBooleanOfOtherWord | StringUtil.py:17-24 | a non-numeric value that normalises to a single character is neither word and gives None |
| StringUtil.IsNullOrEmptyIff | StringUtil.py:26-34 | `isNullOrEmpty` is false exactly for a string holding a non-whitespace character |
| StringUtil.StripToLower | StringUtil.py:38-43 | None exactly for a null or blank value, otherwise the non-empty trimmed, lower-cased text |
| StringUtil.IsStringsEqual | StringUtil.py:45-52 | None exactly when either side is null or blank, otherwise whether the normalised texts are equal |
| StringUtil.IsStringsEqualSymmetric | StringUtil.py:45-52 | the comparison is symmetric |
| StringUtil.IsStringsEqualIgnoresCase | StringUtil.py:49-52 | for any whitespace runs around two stripped texts, the comparison answers whether the texts agree once lower-cased |
| StringUtil.StripChars | StringUtil.py:100-105 | removes the first character exactly when it is an ASCII letter or digit, and nothing else |
| StringUtil.IsAllHaveValues | StringUtil.py:107-116 | the loop's flag is true exactly for a non-empty sequence with no null or blank item |
| StringUtil.IsValInList | StringUtil.py:118-129 | true exactly when some item normalises like the value, a blank value matching a blank item |
| StringUtil.ParseTypeFromList | StringUtil.py:131-148 | None for a blank input or an empty list; otherwise the first original item that normalises like the input, or None when none does |
| StringUtil.MoneyFormIff | StringUtil.py:322-349 | of GetMoneyFromString, the model of get_money_from_string: None for a falsy value; any other value is accepted exactly when its trimmed, lower-cased form is an optional '$', digits, '.' and one or two digits, or an optional '$' and one or more digits, or '$', one or more digits and '.'; the group returned is that form without its '$' |
| StringUtil.MatchMoneyOfForm | StringUtil.py:336-347 | every text of one of the three money forms matches, with the text after its '$' as the group |
| StringUtil.MoneyFormOfMatch | StringUtil.py:336-347 | every text that matches is of one of the three money forms |
| StringUtil.MatchCents | StringUtil.py:337 | the first alternative matches an optional '$', digits, '.' and one or two digits |
| StringUtil.MatchWhole | StringUtil.py:338 | the second alternative matches an optional '$' and one or more digits |
| StringUtil.MatchTrailingPoint | StringUtil.py:339 | '$', digits and a trailing '.' fail the first two alternatives and match the third, which keeps the point |
| StringUtil.DecimalAmountOfParts | StringUtil.py:337 | digits, '.' and one or two digits satisfy the first alternative, found at the first '.' |
| StringUtil.MoneyShape | StringUtil.py:321-349 | a consequence of MoneyFormIff: the amount returned is the normalised input with at most its leading '$' removed, and starts with a digit or '.' |
| StringUtil.MoneyWithCents | StringUtil.py:337 | an instance of MoneyFormIff: '$1.50' comes back as '1.50' |
| StringUtil.MoneyTrailingPoint | StringUtil.py:339 | an instance of MoneyFormIff: '$5.' comes back as '5.' |
| StringUtil.MoneyRejectsSeparator | StringUtil.py:336-347 | an instance of MoneyFormIff: a thousands separator matches no alternative |
| StringUtil.MoneyRejectsWithoutPoint | StringUtil.py:336-347 | without '$' or '.', only an all-digit text is accepted |
| Validator.IsLoggingLevelIff | Validator.py:21-39 | a level is valid exactly when it is a multiple of ten from 0 to 50, the six levels of the doc-comment table |
| Validator.IsValidFile | Validator.py:9-19 | False for a null or blank path and for a path that does not exist; True only when the extensions argument is one string that is a file and contains its own extension |
| Validator.IsValidFileIgnoresPath | Validator.py:12-19 | past the two early returns the answer does not depend on which existing path was named |
| Validator.IsValidFileTextIsFile | Validator.py:15-17 | an extension string that names a file always contains its own extension, so the answer is True |
| Validator.ExtensionContained | StringUtil.py:84-95 | the extension `getFileExtension` computes is contained in the name it came from |
| Validator.IsValidIpAddress | Validator.py:43-57 | False for a missing or empty address, otherwise exactly what the address parser accepts |
| ConfigUtil.GetLoggingLevel | ConfigUtil.py:111-149 | only NullValueError or ValueError is raised, and NullValueError exactly for the falsy levels None, 0 and ''; GetLoggingLevelOkIff states which value comes back for which input, and OtherNumberRejected and OtherTextRejected the ValueError cases |
| ConfigUtil.GetLoggingLevelOkIff | ConfigUtil.py:111-149 | the result is Ok(v) exactly when v is a valid level and the input is v as a non-zero number, a non-empty text whose trimmed, lower-cased form is digits with value v, or such a text that is v's name |
| ConfigUtil.OtherNumberRejected | ConfigUtil.py:118-134 | any non-zero number that is not one of the six levels raises ValueError |
| ConfigUtil.OtherTextRejected | ConfigUtil.py:116-149 | any non-empty text whose normal form is digits of no level, or neither digits nor a level's name, raises ValueError |
| ConfigUtil.GetLoggingLevelIsLoggingLevel | ConfigUtil.py:121-148 | every level returned is one `is_logging_level` accepts |
| ConfigUtil.GetLoggingLevelOfNumber | ConfigUtil.py:118-132 | each valid level number other than 0 is returned as itself |
| ConfigUtil.GetLoggingLevelZero | ConfigUtil.py:113-114 | the integer 0 raises NullValueError while the string '0' gives NOTSET |
| ConfigUtil.LevelOfDigits | ConfigUtil.py:116-134 | a digit string is looked up by its integer value |
| ConfigUtil.GetLoggingLevelOfDecimal | ConfigUtil.py:116-132 | every valid level, as the decimal text `str(level)` gives, parses back to itself |
| ConfigUtil.GetLoggingLevelOfName | ConfigUtil.py:116-148 | every level's name, in any case and with any whitespace on either side, gives that level |
| ConfigUtil.LevelNameLookup | ConfigUtil.py:136-148 | each level's lower-case name is looked up as that level |
| ConfigUtil.LevelOfNameInverse | ConfigUtil.py:136-148 | only the six lower-case names are accepted, each naming its own level |
| ConfigUtil.GetLoggingLevelNormalised | ConfigUtil.py:116 | surrounding whitespace and case never change the answer for a non-blank text |
| ConfigUtil.ReadConfig | ConfigUtil.py:75-90 | with no type and a path not ending in 'json' after trimming and lower-casing, AttributeError; a guessed or given type with an unreadable file, InvalidConfigError; a success is the loaded document |
| ConfigUtil.NewJsonConfig | ConfigUtil.py:64-72 | a falsy path raises NullValueError; a constructed configuration holds the absolute path, whose normal form ends in 'json', and a non-empty document loaded from it |
| ConfigUtil.GetPathInConfigDirectory | ConfigUtil.py:92-109 | a file name resolved by `get_path` lies in the configuration file's directory |
| ConfigUtil.GetPathAbsolute | ConfigUtil.py:100-109 | an absolute path is returned unchanged |
| Wrappers.SetOnceStable | TaskUtil.py:55-67 | a set-once field takes a written value only while it holds none and ignores a falsy write; once set, no later write changes it |
| TaskUtil.CompletedStates | TaskUtil.py:98-105 | the completed states are exactly SUCCESSFUL, FAILURE and STUCK |
| TaskUtil.Task.constructor | TaskUtil.py:35-37 | a new task has no start time, end time or state |
| TaskUtil.Task.SetStartTime | TaskUtil.py:55-58 | the start time becomes the written value only if it is truthy and none is stored; nothing else changes |
| TaskUtil.Task.SetEndTime | TaskUtil.py:64-67 | the end time likewise, set once |
| TaskUtil.Task.SetState | TaskUtil.py:73-84 | a falsy value is ignored; every genuine member raises TypeError; another object is stored only for a completed `.value`, and then the end time is overwritten with the clock, bypassing set-once; otherwise nothing changes |
| TaskUtil.Task.RunningTime | TaskUtil.py:87-96 | None exactly without a start time; otherwise the time up to the end time, or up to the clock while unfinished |
| TaskUtils.StateClasses | TaskUtils/TaskUtils.py:117-151 | finished is exactly STUCK, FAILED and SUCCESS; failed exactly FAILED, STUCK and PARTIAL_FAILURE_OR_SUCCESS; success exactly SUCCESS; in progress exactly IN_PROGRESS; the not-started test exactly NOT_STARTED |
| TaskUtils.Task.constructor | TaskUtils/TaskUtils.py:48-50 | a new task has no state, start time or end time |
| TaskUtils.Task.SetStartTime | TaskUtils/TaskUtils.py:80-83 | the start time is set once, and only to a truthy value; nothing else changes |
| TaskUtils.Task.SetEndTime | TaskUtils/TaskUtils.py:89-92 | the end time likewise |
| TaskUtils.Task.SetState | TaskUtils/TaskUtils.py:64-74 | the state is stored; IN_PROGRESS stamps the start time and a finished state the end time, each through its set-once rule |
| TaskUtils.ApiCallState | TaskUtils/TaskUtils.py:232-243 | IN_PROGRESS exactly without a response, SUCCESS exactly for status 200 or 201, FAILED exactly for any other status |
| TaskUtils.ApiCall.constructor | TaskUtils/TaskUtils.py:170-182 | a new call has a fresh task with nothing set, no response and the given session |
| TaskUtils.ApiCall.SetResponse | TaskUtils/TaskUtils.py:188-191 | the response is stored and the state derived from it goes through the task's state setter, with its time stamps |
| TaskUtils.CollectionStateCases | TaskUtils/TaskUtils.py:292-315 | of CollectionState, the model of get_state, for arbitrary states: an empty collection has no state; any IN_PROGRESS makes it IN_PROGRESS; all SUCCESS makes it SUCCESS; NOT_STARTED with no finished and none in progress gives NOT_STARTED; NOT_STARTED mixed with finished and none in progress gives None; finished states without NOT_STARTED, IN_PROGRESS or a failed state, not all SUCCESS, give UNKNOWN; no NOT_STARTED, IN_PROGRESS or finished state gives None |
| TaskUtils.ApiCallStates | TaskUtils/TaskUtils.py:296-298 | each call's state is the one its response gives |
| TaskUtils.ApiCallCollectionState | TaskUtils/TaskUtils.py:292-315 | CollectionState of a non-empty collection of calls always has a state: IN_PROGRESS exactly while a response is missing, SUCCESS exactly when every status is 200 or 201, FAILED exactly when none is, and otherwise PARTIAL_FAILURE_OR_SUCCESS |
| TaskUtils.CollectionStateAllFailed | TaskUtils/TaskUtils.py:304-309 | a collection whose calls all FAILED is FAILED |
| TaskUtils.MixedStates | TaskUtils/TaskUtils.py:304-307 | finished calls with both a failure and a success make PARTIAL_FAILURE_OR_SUCCESS |
| TaskUtils.AddSessionToApiCalls | TaskUtils/TaskUtils.py:257-266 | None exactly for an empty list or a missing session, with no call changed; otherwise every call gets the same session and the same list comes back |
| TaskUtils.CallsInProgress | TaskUtils/TaskUtils.py:292-315 | one call without a response makes the collection IN_PROGRESS |
| TaskUtils.CallsAllSucceeded | TaskUtils/TaskUtils.py:292-315 | a non-empty collection whose calls all answered 200 or 201 is SUCCESS |
| TaskUtils.CallsAllFailed | TaskUtils/TaskUtils.py:292-315 | a non-empty collection whose calls all answered another status is FAILED |
| TaskUtils.CallsMixed | TaskUtils/TaskUtils.py:292-315 | answered calls with one failing and one succeeding status make PARTIAL_FAILURE_OR_SUCCESS |
| DirectoryCollection.Names | DirectoryCollection.py:226 | the list of every record's 'file' entry, position by position |
| DirectoryCollection.Hashes | DirectoryCollection.py:234 | the list of every record's 'md5sum' entry, position by position |
| DirectoryCollection.MissingMembers | DirectoryCollection.py:226-231 | an entry is reported by one loop exactly when it is listed, truthy and absent from the other side |
| DirectoryCollection.MissingSelf | DirectoryCollection.py:234-239 | no entry is reported when every entry occurs on the other side |
| DirectoryCollection.MissingRepeats | DirectoryCollection.py:250-255 | a missing entry listed n times is reported n times, with no de-duplication |
| DirectoryCollection.AppendMissing | DirectoryCollection.py:242-247 | one loop appends to the result exactly the truthy entries absent from the other side, in order |
| DirectoryCollection.ComparePaths | DirectoryCollection.py:199-257 | None when either argument is falsy; ValueError for an argument that is not a str, list or tuple; otherwise names missing from the second side, hashes missing from it, then both again the other way round |
| DirectoryCollection.DifferenceSelf | DirectoryCollection.py:225-255 | comparing a record list with itself gives [] |
| DirectoryCollection.DifferenceMembers | DirectoryCollection.py:225-255 | an entry is in the result exactly when it is a truthy name of one side missing from the other side's names, or the same for hashes |
| DirectoryCollection.DifferenceRenamed | DirectoryCollection.py:225-255 | a renamed file with unchanged content reports both names and no hash |
| MssqlUtilsConfig.GetConnectionsFrom | DatabaseUtils/MssqlUtils/Config.py:54-78 | one connection per entry, in order, with the entry's host and database and port 1433; an empty username becomes 'sa' and an empty password '', decided afresh for each entry |
| MssqlUtilsConfig.GetConnections | DatabaseUtils/MssqlUtils/Config.py:13-22 | the configured entry gives the single connection localhost/Northwind as 'sa' with an empty password on port 1433 |
| MssqlUtilsConfig.HostFilter | DatabaseUtils/MssqlUtils/Config.py:84-87 | all connections for an empty name; otherwise exactly those whose host equals the name after trimming and lower-casing |
| MssqlUtilsConfig.GetDatabasesFrom | DatabaseUtils/MssqlUtils/Config.py:81-90 | the first connection the host filter keeps raises TypeError, because the database constructor takes no `connection` argument; [] comes back exactly when the filter keeps none |
| MssqlUtilsConfig.GetDatabases | DatabaseUtils/MssqlUtils/Config.py:81-90 | for the configured entries: TypeError for no name or a name matching 'localhost', [] for any other name |
| DatabaseUtilsConfig.FirstMatch | DatabaseUtils/Config.py:25-27 | the index of the first item whose first dict's name matches after trimming and lower-casing, every earlier item missing it; no index when none matches; IndexError only when an empty item is met |
| DatabaseUtilsConfig.GetDatabasesAsDict | DatabaseUtils/Config.py:21-27 | the whole configured list for an empty or missing name; otherwise a configured item whose name matches, or None when no item matches |
| DatabaseUtilsConfig.DatabasesFor | DatabaseUtils/Config.py:32-38 | one database per dict, in order |
| DatabaseUtilsConfig.DatabasesAsObjMeaning | DatabaseUtils/Config.py:30-40 | an empty name raises TypeError unless nothing is configured; a built list belongs to a matching item, one database per dict with its server, name, credentials and relative path, on port 1433 |
| DatabaseUtilsConfig.DatabasesAsObjNoMatch | DatabaseUtils/Config.py:30-33 | a name that matches nothing looks up None, and iterating it raises TypeError |
| DatabaseUtilsConfig.FoundByName | DatabaseUtils/Config.py:21-40 | a name matching an item whose earlier items all carry other names finds that item, and the databases built are that item's |
| DatabaseUtilsConfig.ConfiguredDatabases | DatabaseUtils/Config.py:3-40 | over the configured list, each configured name, in any case and with any whitespace around it, builds the one database of its own item; no name raises TypeError |
| DatabaseUtilsConfig.GetDatabasesAsObj | DatabaseUtils/Config.py:30-40 | the loop returns exactly what the lookup-and-build function describes |
| DatabaseUtilsConfig.BuildDatabases | DatabaseUtils/Config.py:31-40 | the appended databases are one per dict of the item, in order |
| Sqlite3.Pieces | DatabaseUtils/Sqlite3Database.py:87-98 | each line's contribution to the script text, position by position |
| Sqlite3.ScanShape | DatabaseUtils/Sqlite3Database.py:92-98 | every closed command ends with ';', and the pending text is empty or ends with a newline |
| Sqlite3.CommandCount | DatabaseUtils/Sqlite3Database.py:92-95 | there is one command per stripped line ending in ';', so a ';' inside a line does not split |
| Sqlite3.StepKeepsText | DatabaseUtils/Sqlite3Database.py:88-98 | one turn of the loop adds exactly the line's piece to commands-then-pending text |
| Sqlite3.ScanKeepsText | DatabaseUtils/Sqlite3Database.py:86-98 | nothing is lost or reordered: the commands followed by the pending text spell out the stripped non-blank lines in file order |
| Sqlite3.CommandsPrefix | DatabaseUtils/Sqlite3Database.py:86-100 | commands come back in file order: those of a leading part of the file are a prefix of those of the whole |
| Sqlite3.ScanAfterClosed | DatabaseUtils/Sqlite3Database.py:92-95 | after a closed command the rest of the file splits independently |
| Sqlite3.TrailingLinesDiscarded | DatabaseUtils/Sqlite3Database.py:96-100 | lines after the last ';'-terminated line produce no command |
| Sqlite3.GetSqlCommandsFromScript | DatabaseUtils/Sqlite3Database.py:67-100 | None for an empty path, FileNotFoundError for a file that cannot be opened, otherwise exactly the commands of the file's lines |
| Sqlite3.RunCommandsAccounts | DatabaseUtils/Sqlite3Database.py:126-132 | every command of a script is either committed or logged as failed, nothing committed earlier is undone, and only the script's commands are committed or logged |
| Sqlite3.RunCommandsNoFailure | DatabaseUtils/Sqlite3Database.py:126-129 | with no failing command, every command is committed in order and nothing is logged |
| Sqlite3.ScriptsRunAppend | DatabaseUtils/Sqlite3Database.py:157-164 | a failing script does not stop the next: running two lists of scripts is running the first, then the second from the state it left |
| Sqlite3.ScriptRunAsList | DatabaseUtils/Sqlite3Database.py:157-162 | a script that is a file runs the same on its own and as a one-element list |
| Sqlite3.InitRunInOrder | DatabaseUtils/Sqlite3Database.py:28-57 | nothing runs for an existing database unless forced; otherwise the schema script runs and then each setup script, in order |
| Sqlite3.Sqlite3Database.constructor | DatabaseUtils/Sqlite3Database.py:11-26 | the settings are stored and the database is initialised |
| Sqlite3.Sqlite3Database.InitializeDatabase | DatabaseUtils/Sqlite3Database.py:28-57 | the committed commands and the log become what the initialisation sequence gives |
| Sqlite3.Sqlite3Database.ExecuteSqlScript | DatabaseUtils/Sqlite3Database.py:105-132 | an empty path or a non-file is only logged; otherwise each command in turn is committed or rolled back and logged |
| Sqlite3.Sqlite3Database.ExecuteSqlScripts | DatabaseUtils/Sqlite3Database.py:153-164 | every path in order: a non-file is logged and skipped, every other script is executed |
| EtlUtil.UnescapeEscape | EtlUtils/EtlUtil.py:123 | doubling single quotes loses nothing: collapsing each '' of an escaped value gives the value back |
| EtlUtil.EscapeWithoutQuotes | EtlUtils/EtlUtil.py:123 | a value without single quotes is not changed by escaping |
| EtlUtil.InsertValue | EtlUtils/EtlUtil.py:95-129 | a blank str(value) becomes NULL, or '' with the flag; any other value is escaped and wrapped in single quotes when quoted and in square brackets otherwise |
| EtlUtil.InsertValueRoundTrip | EtlUtils/EtlUtil.py:117-127 | the quoted form of a non-blank value starts and ends with a quote, and the text between reads back as str(value) |
| EtlUtil.InsertValueOfNone | EtlUtils/EtlUtil.py:117-127 | None is rendered as the quoted text 'None', not as NULL |
| EtlUtil.Rendered | EtlUtils/EtlUtil.py:143-147 | one rendered value per item, position by position |
| EtlUtil.ColumnValuesJoin | EtlUtils/EtlUtil.py:141-153 | a non-empty item list renders as one leading space and the rendered items joined by ', ' |
| EtlUtil.GetColumnValues | EtlUtils/EtlUtil.py:131-153 | None for a blank string or an empty list; a bare string counts as a one-item tuple; otherwise the loop's text equals the joined rendering |
| EtlUtil.InsertStatementText | EtlUtils/EtlUtil.py:156-171 | an insert names database.schema.table, lists the bracketed columns and then the quoted values, each joined by ', ', and appends GO exactly when asked |
| EtlUtil.InsertStatementEnds | EtlUtils/EtlUtil.py:160-171 | every insert ends in ')' and GO when asked for, and in the closing parenthesis and a newline otherwise |
| EtlUtil.InsertWithoutColumns | EtlUtils/EtlUtil.py:135-166 | with no column names the column list is the text None, since the builder returns None and format prints it |
| EtlUtil.ColumnLines | EtlUtils/EtlUtil.py:85-86 | one NVARCHAR(MAX) line per header column, in header order |
| EtlUtil.CreateTableText | EtlUtils/EtlUtil.py:58-91 | for a non-blank table name whose key column is not in the header: the drop block, the '<table>ID' identity key, one line per column, then the closing parenthesis and GO |
| EtlUtil.CreateTable | EtlUtils/EtlUtil.py:58-91 | None for a blank table name, AttributeError when the header already holds the key name (the renaming loop calls a missing attribute), otherwise the text above |
| EtlUtil.DataImport.constructor | EtlUtils/EtlUtil.py:175-190 | the settings are stored and the first row is dropped when it holds the column names |
| EtlUtil.DataImport.GenerateSqlInsertStmtsList | EtlUtils/EtlUtil.py:206-220 | one insert per row, in row order, each with GO and a trailing newline |
| EtlUtil.DataImport.GenerateAllSql | EtlUtils/EtlUtil.py:192-232 | a list of the options, the CREATE text (None for a blank table name) and every insert in row order; the CREATE text's error is passed on |
| EtlUtil.RenderEach | EtlUtils/EtlUtil.py:212-220 | the rendered list has one element per input, position by position |
| EtlUtil.AssembleSql | EtlUtils/EtlUtil.py:228-232 | the options come first, then the CREATE text, then each insert in order |
| EtlUtil.Cells | EtlUtils/EtlUtil.py:214-216 | the column names as cells, position by position |
| MssqlObjects.IsValueQuoted | DatabaseUtils/MssqlUtils/mssql_objects/MssqlObjects.py:100-110 | true exactly when the value is non-empty and, trimmed, starts with '[' and ends with ']' |
| MssqlObjects.QuotedLength | DatabaseUtils/MssqlUtils/mssql_objects/MssqlObjects.py:107-120 | a value that starts with '[' and ends with ']' holds both brackets, so the slice that drops them is defined |
| MssqlObjects.UnquoteValue | DatabaseUtils/MssqlUtils/mssql_objects/MssqlObjects.py:113-122 | None exactly for a falsy value; otherwise the trimmed value, which is the result wrapped in one bracket pair when it was quoted and the result itself when not |
| MssqlObjects.StripBracketed | DatabaseUtils/MssqlUtils/mssql_objects/MssqlObjects.py:117 | a bracketed text has no surrounding whitespace to trim |
| MssqlObjects.UnquoteBracketed | DatabaseUtils/MssqlUtils/mssql_objects/MssqlObjects.py:113-122 | wrapping any name in brackets and unquoting it gives the name back |
| MssqlObjects.UnquoteDoubleBracket | DatabaseUtils/MssqlUtils/mssql_objects/MssqlObjects.py:119-120 | exactly one bracket pair is removed: '[[a]]' becomes '[a]' |
| MssqlObjects.GetQuotedName | DatabaseUtils/MssqlUtils/mssql_objects/MssqlObjects.py:125-132 | None exactly for a falsy value; a quoted value comes back as given, untrimmed; any other value comes back trimmed |
| MssqlObjects.GetQuotedNameAddsNoBrackets | DatabaseUtils/MssqlUtils/mssql_objects/MssqlObjects.py:125-132 | get_quoted_name never adds brackets: an unquoted value stays unquoted |
| MssqlObjects.FullName | DatabaseUtils/MssqlUtils/mssql_objects/MssqlObjects.py:134-157 | the printed schema and name joined by '.', and with the database flag the printed database, schema and name joined by '.' |
| MssqlObjects.FullNameWithDatabase | DatabaseUtils/MssqlUtils/mssql_objects/MssqlObjects.py:141-157 | the name with the database flag is the printed database, a '.', and the name without the flag |
| MssqlObjects.FullNameSplits | DatabaseUtils/MssqlUtils/mssql_objects/MssqlObjects.py:134-157 | when no printed part holds a '.', splitting the full name on '.' gives back [schema, name], or [database, schema, name] with the flag |
| MssqlObjects.FullNameQuotedIsPlain | DatabaseUtils/MssqlUtils/mssql_objects/MssqlObjects.py:145-157 | for plain trimmed parts the quoted full name equals the unquoted one, so brackets appear only when they were stored |
| MssqlObjects.SqlServerObject.constructor | DatabaseUtils/MssqlUtils/mssql_objects/MssqlObjects.py:65-73 | the name parts are stored raw, without unquoting |
| MssqlObjects.SqlServerObject.SetName | DatabaseUtils/MssqlUtils/mssql_objects/MssqlObjects.py:79-82 | the name becomes the unquoted value and nothing else changes |
| MssqlObjects.SqlServerObject.SetSchema | DatabaseUtils/MssqlUtils/mssql_objects/MssqlObjects.py:88-90 | the schema becomes the unquoted value and nothing else changes |
| MssqlObjects.SqlServerObject.SetDatabase | DatabaseUtils/MssqlUtils/mssql_objects/MssqlObjects.py:96-98 | the database becomes the unquoted value and nothing else changes |
| MssqlObjects.SqlServerObject.GetObjectFullName | DatabaseUtils/MssqlUtils/mssql_objects/MssqlObjects.py:134-157 | 'schema.name' of the object's current parts as printed, and with the database flag the printed database, a '.', and that same 'schema.name' |
| MssqlObjects.ColumnSqlShape | DatabaseUtils/MssqlUtils/mssql_objects/MssqlObjects.py:215-225 | a quoted column text starts with the bracketed name and a space; it ends in ' NOT NULL' when the column is nullable and in the type text otherwise |
| MssqlObjects.ColumnSqlNullable | DatabaseUtils/MssqlUtils/mssql_objects/MssqlObjects.py:222-225 | the nullable flag appends ' NOT NULL' and changes nothing else |
| MssqlObjects.Column.constructor | DatabaseUtils/MssqlUtils/mssql_objects/MssqlObjects.py:161-167 | the name, type text and flag are stored as given |
| MssqlObjects.Column.SetName | DatabaseUtils/MssqlUtils/mssql_objects/MssqlObjects.py:174-179 | a falsy value is ignored; any other value is trimmed and unquoted; nothing else changes |
| MssqlObjects.Column.SetSql | DatabaseUtils/MssqlUtils/mssql_objects/MssqlObjects.py:185-190 | a falsy value is ignored, any other is stored; nothing else changes |
| MssqlObjects.Column.SetIsNullable | DatabaseUtils/MssqlUtils/mssql_objects/MssqlObjects.py:196-201 | False is falsy and ignored, so the flag can be set but never cleared |
| MssqlObjects.States | DatabaseUtils/MssqlUtils/mssql_objects/MssqlObjects.py:267 | the state of each column in turn |
| MssqlObjects.Table.constructor | DatabaseUtils/MssqlUtils/mssql_objects/MssqlObjects.py:229-238 | a new object with the raw name parts, and the given columns |
| MssqlObjects.Table.GetSqlCreateTable | DatabaseUtils/MssqlUtils/mssql_objects/MssqlObjects.py:240-287 | the text is the reference CREATE TABLE text: the '##', '#' or no prefix, the quoted name, each kept column, each additional column, then '\n)' |
| MssqlObjects.KeptColumnLines | DatabaseUtils/MssqlUtils/mssql_objects/MssqlObjects.py:267-279 | the loop's text is that of the kept columns, each on a new line, with a comma whenever the column's original index is above 0 |
| MssqlObjects.ColumnLinesNext | DatabaseUtils/MssqlUtils/mssql_objects/MssqlObjects.py:268-279 | one more column adds its line (with a comma after index 0) when it passes the include and exclude lists, and nothing otherwise |
| MssqlObjects.AdditionalColumnLines | DatabaseUtils/MssqlUtils/mssql_objects/MssqlObjects.py:281-283 | each additional column on a new line, in order, without commas |
| MssqlObjects.CreateTableJoinsColumns | DatabaseUtils/MssqlUtils/mssql_objects/MssqlObjects.py:251-287 | without filters, extra columns or temporary flags the column texts are joined by ',\n' |
| MssqlObjects.ColumnTexts | DatabaseUtils/MssqlUtils/mssql_objects/MssqlObjects.py:273 | each column's quoted text, position by position |
| MssqlObjects.ColumnLinesJoined | DatabaseUtils/MssqlUtils/mssql_objects/MssqlObjects.py:267-279 | without filters the first n columns render as a newline and their texts joined by ',\n' |
| MssqlObjects.ColumnLinesStep | DatabaseUtils/MssqlUtils/mssql_objects/MssqlObjects.py:276-279 | without filters every column after the first adds ',\n' and its text |
| MssqlObjects.CreateTableExcludedFirstColumn | DatabaseUtils/MssqlUtils/mssql_objects/MssqlObjects.py:270-277 | the comma depends on the original index, so excluding the first column leaves a leading comma on the second |
| MssqlObjects.TempTableStatements | DatabaseUtils/MssqlUtils/mssql_objects/MssqlObjects.py:257-262 | for any columns and filters, the local temporary table's statement is the plain one with '#' before the table name, and the global one's has '##' there, whether or not the local flag is also set |
| MssqlUtilsDatabase.GetBoolFromString | DatabaseUtils/MssqlUtils/Database.py:14-24 | None exactly for a falsy value; True exactly for '1' and 'true' after trimming and lower-casing; False for every other value |
| MssqlUtilsDatabase.NormOfDigits | DatabaseUtils/MssqlUtils/Database.py:19 | a string of digits is unchanged by trimming and lower-casing |
| MssqlUtilsDatabase.GetBoolAgreesWithStringUtil | DatabaseUtils/MssqlUtils/Database.py:14-24 | against StringUtil's parser: its false strings are false here, its non-numeric true strings are true here, and no non-empty string is None here |
| MssqlUtilsDatabase.GetBoolDiffersOnPadding | DatabaseUtils/MssqlUtils/Database.py:19-21 | ' 1' is True here, as the value is trimmed before the comparison, and None in StringUtil |
| MssqlUtilsDatabase.GetBoolDiffersOnLeadingZero | DatabaseUtils/MssqlUtils/Database.py:21-24 | '01' is False here and True in StringUtil, which reads it as a number |
| MssqlUtilsDatabase.KeptLinesAppend | DatabaseUtils/MssqlUtils/Database.py:195-199 | the USE filter works line by line: filtering two parts of a file is filtering the whole |
| MssqlUtilsDatabase.KeptLinesMembers | DatabaseUtils/MssqlUtils/Database.py:196-199 | a line is kept exactly when it is in the file and neither starts with 'use' nor with a byte order mark after trimming and lower-casing |
| MssqlUtilsDatabase.KeptLinesIdempotent | DatabaseUtils/MssqlUtils/Database.py:196-199 | filtering the kept lines again changes nothing |
| MssqlUtilsDatabase.UseLinesAreNotBlank | DatabaseUtils/MssqlUtils/Database.py:197 | a line that starts with 'use' is not blank, so the 'use' test short-circuits before the index that fails on blank lines |
| MssqlUtilsDatabase.ReadScript | DatabaseUtils/MssqlUtils/Database.py:186-202 | None for an empty path, an error for a file that cannot be opened, every line without the flag, and with it the filtered lines or IndexError for a blank line |
| MssqlUtilsDatabase.ReadLines | DatabaseUtils/MssqlUtils/Database.py:193-200 | the loop fails exactly when the flag is set and some line is blank; otherwise it returns the file's lines, minus USE and byte-order-mark lines with the flag |
| MssqlUtilsDatabase.ReadScriptFilters | DatabaseUtils/MssqlUtils/Database.py:186-202 | with the flag, reading succeeds exactly when no line is blank; what comes back holds no USE or byte-order-mark line and only lines of the file, and reading it again changes nothing |
| MssqlUtilsDatabase.ReadScriptPlain | DatabaseUtils/MssqlUtils/Database.py:192-200 | without the flag the file's lines come back unchanged, blank lines included |
| MssqlUtilsDatabase.AppendAssoc | DatabaseUtils/MssqlUtils/Database.py:57-81 | appending collected scripts in several steps is appending them all at once |
| MssqlUtilsDatabase.AppendEmpty | DatabaseUtils/MssqlUtils/Database.py:45 | appending to nothing leaves a result unchanged |
| MssqlUtilsDatabase.ReadFolder | DatabaseUtils/MssqlUtils/Database.py:55-60 | read_script on each of a folder's files, one item per file in listing order, stopping at the first error |
| MssqlUtilsDatabase.DirScriptsNoneMatching | DatabaseUtils/MssqlUtils/Database.py:47-53 | entries that are not matching directories are never read, so with none the group is empty |
| MssqlUtilsDatabase.DirScriptsSkip | DatabaseUtils/MssqlUtils/Database.py:49-53 | dropping an entry that is not a matching directory from the listing changes nothing collected |
| MssqlUtilsDatabase.UpperCaseGroupIsEmpty | DatabaseUtils/MssqlUtils/Database.py:52 | the directory name is lower-cased and the name asked for is not, so a group name with an upper-case letter matches nothing |
| MssqlUtilsDatabase.CollectStep | DatabaseUtils/MssqlUtils/Database.py:64-81 | one non-empty group adds its scripts before the rest, and the whole succeeds exactly when this group and the rest do |
| MssqlUtilsDatabase.BackupFolderOrder | DatabaseUtils/MssqlUtils/Database.py:64-81 | scripts are collected group by group in the order database, other, tables, functions, views, procedures, and collecting succeeds exactly when every group is read |
| MssqlUtilsDatabase.ConsSix | DatabaseUtils/MssqlUtils/Database.py:64-81 | the six groups taken apart one head at a time |
| MssqlUtilsDatabase.CollectSix | DatabaseUtils/MssqlUtils/Database.py:64-81 | six non-empty groups are collected one after the other |
| MssqlUtilsDatabase.DatabaseBackupCollection.constructor | DatabaseUtils/MssqlUtils/Database.py:34-35 | the path is stored and nothing is collected yet |
| MssqlUtilsDatabase.DatabaseBackupCollection.GetScript | DatabaseUtils/MssqlUtils/Database.py:38-39 | '' exactly for an empty collection; otherwise TypeError, since the items are lists and str.join takes only strings |
| MssqlUtilsDatabase.DatabaseBackupCollection.GetFilesByDirName | DatabaseUtils/MssqlUtils/Database.py:41-62 | None for an empty name; otherwise the scripts of every directory whose trimmed, lower-cased name is the name asked for, in listing order, or the first read error |
| MssqlUtilsDatabase.DatabaseBackupCollection.AppendEach | DatabaseUtils/MssqlUtils/Database.py:65-66 | the items are appended to the collection in order |
| MssqlUtilsDatabase.DatabaseBackupCollection.ReadFilesFromBackupPath | DatabaseUtils/MssqlUtils/Database.py:64-81 | the collection grows by the scripts of the six groups in their fixed order; an error stops it |
| MssqlUtilsDatabase.DatabaseBackupCollection.ReadGroups | DatabaseUtils/MssqlUtils/Database.py:64-81 | the collection grows by the scripts of the given groups in order, up to the first group that fails |
| MssqlUtilsDatabase.CollectGroups | DatabaseUtils/MssqlUtils/Database.py:64-81 | the scripts of the groups in order and how collecting stops, as the reference collection gives them |
| MssqlUtilsDatabase.CollectAt | DatabaseUtils/MssqlUtils/Database.py:64-81 | one group step of the collection: an error or a missing group stops it, otherwise its scripts come before the rest |
| MssqlUtilsDatabase.CollectAdvance | DatabaseUtils/MssqlUtils/Database.py:64-81 | an error at a group leaves exactly the earlier groups' scripts; a group that was read lets collection go on after it |
| MssqlUtilsDatabase.NewDatabaseBackupCollection | DatabaseUtils/MssqlUtils/Database.py:28-36 | ValueError for an empty or missing path; otherwise a new collection of the path holding every group's scripts, or the error collecting raised |
| DatabaseSql.CreateIsNotGo | DatabaseUtils/Database.py:256-263 | a line that starts with 'create' after normalising does not start with 'go', so the go test never drops the start line |
| DatabaseSql.FirstWhere | DatabaseUtils/Database.py:254-267 | the index of the first line that passes the start test, or the line count when none does; no earlier line passes |
| DatabaseSql.FirstCreate | DatabaseUtils/Database.py:263-265 | the index of the first line whose trimmed, lower-cased text starts with 'create', or the line count |
| DatabaseSql.DropGoMembers | DatabaseUtils/Database.py:256-257 | a line survives the go filter exactly when it is in the file and does not start with 'go' after normalising, which includes 'goto' |
| DatabaseSql.KeptSoFarStep | DatabaseUtils/Database.py:255-267 | one turn of the loop keeps the line exactly when it is at or after the start line and is not skipped |
| DatabaseSql.DropWhereSnoc | DatabaseUtils/Database.py:255-257 | the filter works line by line: one more line is kept exactly when it is not skipped |
| DatabaseSql.KeepFrom | DatabaseUtils/Database.py:252-267 | the loop with its start flag keeps, in order, the lines from the first start line on that are not skipped |
| DatabaseSql.ScriptBodyStart | DatabaseUtils/Database.py:252-269 | without a 'create' line the body is empty; otherwise it starts with the first 'create' line |
| DatabaseSql.DropWhereFirst | DatabaseUtils/Database.py:259-265 | a first line that is not skipped stays first |
| DatabaseSql.GetSqlFromFile | DatabaseUtils/Database.py:247-269 | None for an empty path, an error for a file that cannot be opened, otherwise the lines from the first 'create' line on, without go lines, joined with '' |
| DatabaseSql.ReadScriptBody | DatabaseUtils/Database.py:252-267 | the loop's lines are the script body: from the first 'create' line on, minus every go line |
| DatabaseSql.QuotedValues | DatabaseUtils/Database.py:351-352 | each value in single quotes, not escaped, position by position |
| DatabaseSql.GenerateInString | DatabaseUtils/Database.py:331-358 | None for no values; otherwise the quoted values joined by a bare ',' in parentheses, with no spaces and no IN keyword |
| DatabaseSql.InStringSingle | DatabaseUtils/Database.py:351-358 | a single value gives ('v') |
| DatabaseSql.InStringPair | DatabaseUtils/Database.py:351-358 | two values give ('v','w'), contrary to the doc comment's IN ('10', '20') |
| DatabaseSql.QuoteName | DatabaseUtils/Database.py:182 | QUOTENAME always brackets its argument |
| DatabaseSql.EscapeBracketsPlain | DatabaseUtils/Database.py:182 | QUOTENAME only wraps a name that holds no ']' |
| DatabaseSql.ObjectsQueryMembers | DatabaseUtils/Database.py:165-188 | a row is returned exactly when some catalog object passes the date filter; each row carries 'schema.name' and '[schema].[name]' and the later of the modify and create dates |
| DatabaseSql.ObjectsQueryAll | DatabaseUtils/Database.py:174-186 | without a date there is no WHERE clause, so every object is listed |
| MssqlScripter.Render | DatabaseUtils/Database.py:816-912 | the strings handed to the process, one per argument, position by position |
| MssqlScripter.Values | DatabaseUtils/Database.py:849-853 | each list element as one value argument, in order |
| MssqlScripter.NewMssqlDatabase | DatabaseUtils/Database.py:464-481 | the settings are kept, and a missing or zero port becomes 1433 |
| MssqlScripter.RemoveFirstFacts | DatabaseUtils/Database.py:858-859 | list.remove leaves a list without the element unchanged, and otherwise deletes exactly one element and keeps the others |
| MssqlScripter.AppendValues | DatabaseUtils/Database.py:850-851 | every element of a list is appended, in order |
| MssqlScripter.AppendListArg | DatabaseUtils/Database.py:845-891 | one list block as the builder runs it: nothing when falsy, the flag and its elements, or for another type the flag appended and then the first named flag removed |
| MssqlScripter.AppendHeadArgs | DatabaseUtils/Database.py:818-827 | the default options, then '--script-create' only without drop-create, then '--script-drop-create' and '--check-for-existence' |
| MssqlScripter.AppendFlagIf | DatabaseUtils/Database.py:897-910 | a trailing flag is appended exactly when its option is set |
| MssqlScripter.AppendTrailingArgs | DatabaseUtils/Database.py:897-910 | the trailing flags, in their fixed order check-for-existence, change-tracking, data-only, schema-and-data, append |
| MssqlScripter.GetScripterArgs | DatabaseUtils/Database.py:780-912 | appending flag by flag gives the reference argument list, or its error |
| MssqlScripter.ScripterArgsErrors | DatabaseUtils/Database.py:832-895 | the builder fails exactly for a non-blank file path without a local path (TypeError, from os.path.join) and for any exclude_objects (NotImplementedError), in that order |
| MssqlScripter.FilePathArgsShape | DatabaseUtils/Database.py:832-843 | the file path block is empty exactly for a missing or blank path, and is otherwise '--file-path' and the path joined onto local_path, since abspath('') is never '' |
| MssqlScripter.ListStepAppendsBlock | DatabaseUtils/Database.py:845-853 | a list, tuple or string argument adds its flag and elements at the end |
| MssqlScripter.BuildArgsBlocks | DatabaseUtils/Database.py:816-912 | with well-typed list arguments the list is the leading flags, the include-types, exclude-types and include-objects blocks, then the trailing flags |
| MssqlScripter.BlockOfText | DatabaseUtils/Database.py:852-853 | a list argument given as one non-empty string adds exactly one element after its flag |
| MssqlScripter.ListStepBadTypeRestores | DatabaseUtils/Database.py:854-875 | a wrongly typed include or exclude types value leaves no trace: its flag is appended and removed again |
| MssqlScripter.RemoveFirstAbsentPrefix | DatabaseUtils/Database.py:858-859 | list.remove skips a prefix that does not hold the element |
| MssqlScripter.RemoveFirstSnoc | DatabaseUtils/Database.py:858-859 | removing before or after appending a different element gives the same list |
| MssqlScripter.ListStepBadObjects | DatabaseUtils/Database.py:886-891 | a wrongly typed include_objects keeps its own flag and removes the first '--include-types' instead |
| MssqlScripter.BuildArgsBadObjects | DatabaseUtils/Database.py:845-891 | for every option set with a bad include_objects value, the first include-types flag produced so far is removed and the include-objects flag stays with no element; a non-empty include-types list is left behind without its flag |
| MssqlScripter.BuildArgsBadObjectsDropsTypesFlag | DatabaseUtils/Database.py:845-891 | an instance of BuildArgsBadObjects: include_types ['Table'] leaves a bare 'Table' |
| MssqlScripter.ListStepKeepsPrefix | DatabaseUtils/Database.py:845-891 | a list block only adds at the end, unless the flag it may remove is in the prefix |
| MssqlScripter.BuildArgsDropCreate | DatabaseUtils/Database.py:818-827 | drop-create is followed immediately by check-for-existence, and script-create is emitted only without drop-create, right after the default options |
| MssqlScripter.ListStepOtherFlags | DatabaseUtils/Database.py:845-891 | a list block neither adds nor removes any flag but its own two |
| MssqlScripter.ScriptCreateIff | DatabaseUtils/Database.py:822-823 | '--script-create' is in the arguments exactly when script-create is asked for without drop-create |
| MssqlScripter.BuildArgsEndsWithTrailing | DatabaseUtils/Database.py:897-912 | the trailing flags always close the argument list |
| MssqlScripter.NormsIndex | DatabaseUtils/Database.py:964 | each argument trimmed and lower-cased, position by position |
| MssqlScripter.LowerOfLower | DatabaseUtils/Database.py:964-967 | a text without upper-case letters is its own lower() |
| MssqlScripter.OptionNormal | DatabaseUtils/Database.py:964-967 | an option name of dashes and lower-case letters is its own normal form |
| MssqlScripter.DefaultOptionsNormal | DatabaseUtils/Database.py:963-967 | comparing a default option as a flag is comparing its text trimmed and lower-cased |
| MssqlScripter.ActionResult | DatabaseUtils/Database.py:983-988 | the output of a run that succeeded, and None once a failure is logged and swallowed |
| MssqlScripter.AppendMissingDefaults | DatabaseUtils/Database.py:963-968 | the default options missing from the arguments are appended, in order |
| MssqlScripter.AppendAll | DatabaseUtils/Database.py:970-972 | the arguments are appended unchanged, in order |
| MssqlScripter.DoAction | DatabaseUtils/Database.py:943-988 | exactly one command is issued: the connection prefix, the missing default options, then the arguments; the result is the output or None |
| MssqlScripter.MissingDefaultsMembers | DatabaseUtils/Database.py:963-968 | a default option is added exactly when no argument equals it after trimming and lower-casing |
| MssqlScripter.ActionCommandShape | DatabaseUtils/Database.py:961-972 | the command is the ten-element connection prefix of mssql-scripter, server, database, user, password and progress, then the defaults, then the arguments unchanged |
| MssqlScripter.ActionCommandHasDefaults | DatabaseUtils/Database.py:963-972 | with defaults included every default option is present after the prefix, added or already given |
| MssqlScripter.DefaultsPresent | DatabaseUtils/Database.py:963-972 | every default option is among the missing defaults followed by the arguments |
| MssqlScripter.RemoveBracketsConcat | DatabaseUtils/Database.py:1009 | removing brackets works piece by piece |
| MssqlScripter.RemoveBracketsPlain | DatabaseUtils/Database.py:1009 | a name without brackets is looked up as given |
| MssqlScripter.RemoveBracketsLiterals | DatabaseUtils/Database.py:1009 | the bracket pieces of a quoted name reduce to nothing and to '.' |
| MssqlScripter.RemoveBracketsQuotedName | DatabaseUtils/Database.py:1000-1009 | '[schema].[name]' is looked up as 'schema.name' |
| MssqlScripter.NotFoundMembers | DatabaseUtils/Database.py:994-1013 | an object is reported exactly when it was requested and its bracket-free name is no 'schema.name' of the database |
| MssqlScripter.GetObjectsNotFound | DatabaseUtils/Database.py:990-1022 | None exactly for an empty list; otherwise the requested objects the database lacks, in order |
| MssqlScripter.AsciiOnlyFacts | DatabaseUtils/Database.py:1062 | decoding as ASCII while ignoring errors keeps exactly the ASCII characters, and an ASCII text whole |
| MssqlScripter.ScriptResult | DatabaseUtils/Database.py:1058-1064 | None when a path is given; otherwise the ASCII part of the output, and AttributeError when the failed run gave None |
| MssqlScripter.BuildScriptObjectsArgs | DatabaseUtils/Database.py:1042-1056 | the appended arguments are the path block, '--include-objects' and every object, then the three fixed flags |
| MssqlScripter.ScriptObjects | DatabaseUtils/Database.py:1024-1064 | the commands issued and the result are those of the reference run |
| MssqlScripter.ScriptObjectsGuards | DatabaseUtils/Database.py:1030-1058 | None for an empty list, ValueError for a missing path or an unknown object, both before the tool runs; otherwise exactly one command |
| MssqlScripter.ScriptPathArgsShape | DatabaseUtils/Database.py:1043-1048 | the path flag and path exactly when a path is given, and file-per-object only alongside a path |
| MssqlScripter.ScriptObjectsArgsShape | DatabaseUtils/Database.py:1042-1056 | the path block, the include-objects flag and every object in order, then exclude-use-database, drop-create and check-for-existence; file-per-object appears only in the path block |
| MssqlScripter.CommandShape | DatabaseUtils/Database.py:1042-1056 | where each part of the built argument list sits, and what it contains |
| DatabaseCompare.RemoveCharFacts | DatabaseUtils/Database.py:1082 | REPLACE(s, c, '') leaves no c and keeps every other character |
| DatabaseCompare.ObjDefinition | DatabaseUtils/Database.py:1082-1085 | a NULL definition (no module row) stays NULL, any other is normalised |
| DatabaseCompare.ObjDefinitionHasNoLineBreaks | DatabaseUtils/Database.py:1082 | the normalised definition holds no LF and no CR |
| DatabaseCompare.ModulesMembers | DatabaseUtils/Database.py:1086-1115 | exactly the objects of the four module types are compared |
| DatabaseCompare.UnionRowsMembers | DatabaseUtils/Database.py:1148-1165 | the UNION holds exactly the rows the source modules contribute |
| DatabaseCompare.StrLeTotal | DatabaseUtils/Database.py:1166-1168 | the ordinal string order is total |
| DatabaseCompare.StrLeTrans | DatabaseUtils/Database.py:1166-1168 | the ordinal string order is transitive |
| DatabaseCompare.StrLeAntisym | DatabaseUtils/Database.py:1166-1168 | the ordinal string order is antisymmetric |
| DatabaseCompare.RowLeTotal | DatabaseUtils/Database.py:1166-1168 | ordering by CompareType then FullNameQuoted is total |
| DatabaseCompare.RowLeTrans | DatabaseUtils/Database.py:1166-1168 | ordering by CompareType then FullNameQuoted is transitive |
| DatabaseCompare.SortedSnoc | DatabaseUtils/Database.py:1166-1168 | a row no smaller than every row of a sorted list can follow them |
| DatabaseCompare.InsertFacts | DatabaseUtils/Database.py:1166-1168 | inserting a row keeps the list sorted and adds exactly that row |
| DatabaseCompare.InsertFront | DatabaseUtils/Database.py:1166-1168 | a row no greater than the first of a sorted list goes in front |
| DatabaseCompare.InsertBehind | DatabaseUtils/Database.py:1166-1168 | the first row of a sorted list stays first after an insertion behind it |
| DatabaseCompare.SortRowsFacts | DatabaseUtils/Database.py:1166-1168 | ORDER BY gives a sorted permutation of the rows |
| DatabaseCompare.DedupFacts | DatabaseUtils/Database.py:1154 | UNION drops duplicate rows, keeps every distinct row and keeps a sorted list sorted |
| DatabaseCompare.CompareObjectsMembers | DatabaseUtils/Database.py:1066-1171 | of CompareObjects, the model of compare_objects: the rows are exactly a 'not exists' row for each source module whose quoted name the destination lacks, and a 'hash' row for each other source module whose hash matches no destination hash |
| DatabaseCompare.CompareObjectsSorted | DatabaseUtils/Database.py:1148-1168 | the rows of CompareObjects are sorted by CompareType then FullNameQuoted, with no duplicates |
| DatabaseCompare.HashBeforeNotExists | DatabaseUtils/Database.py:1151-1167 | 'hash' sorts before 'not exists' |
| DatabaseCompare.HashRowsFirst | DatabaseUtils/Database.py:1148-1168 | every 'hash' row precedes every 'not exists' row |
| DatabaseCompare.CompareWithItself | DatabaseUtils/Database.py:1119-1146 | comparing a database with itself reports only modules with a NULL definition, each as a 'hash' row, since a NULL hash never joins |
| DatabaseCompare.OnlySourceObjects | DatabaseUtils/Database.py:1129-1158 | a destination-only object never appears: every row is that of a source module |
| DbRestore.Partition | bin/db_restore.py:18-24 | to_create holds the FullName of every 'not exists' row and to_modify that of every 'hash' row, each in row order, comparing the lower-cased CompareType |
| DbRestore.PartitionAppend | bin/db_restore.py:18-24 | both lists keep row order: the rows of a concatenation give the concatenated lists |
| DbRestore.PartitionMembers | bin/db_restore.py:18-24 | a name is to be created exactly when some 'not exists' row carries it, and to be modified exactly when some 'hash' row carries it |
| DbRestore.PartitionDisjoint | bin/db_restore.py:18-24 | each row lands in at most one list, and the lists account for every row exactly when every row is 'not exists' or 'hash' |
| DbRestore.LowerOfTypes | bin/db_restore.py:19-23 | both compare types are already lower-case |
| DbRestore.ComparisonRows | bin/db_restore.py:10-24 | every comparison row is a source module's 'not exists' or 'hash' row, with the FullName column read at index 3 |
| DbRestore.RestoreIgnoresNothing | bin/db_restore.py:10-24 | on the rows of the comparison no row is ignored |
| DbRestore.RestoreCreatesMissing | bin/db_restore.py:10-21 | the names to create are exactly those of the source modules the destination lacks |
| DbRestore.RestoreModifiesChanged | bin/db_restore.py:10-24 | the names to modify are exactly those of the other source modules whose hash matches no destination hash |
| DbRestore.Restore | bin/db_restore.py:18-51 | the commands issued and the printed value of script are those of the reference run |
| DbRestore.RestoreNameError | bin/db_restore.py:30-51 | NameError exactly when both lists are empty, and then no command runs |
| DbRestore.RestoreCreatesFirst | bin/db_restore.py:30-34 | at most two commands, creates before modifies, each list in one command; a create list with an unknown object stops the script before any command |
| DatabaseBackup.SubFoldersTable | DatabaseUtils/MssqlUtils/DatabaseBackup.py:23-29 | the folder map has exactly five entries, each entry's folder is its type's folder, and every type that has a folder is one of the entries |
| DatabaseBackup.MappedTypeValues | DatabaseUtils/MssqlUtils/DatabaseBackup.py:516 | the exclude list of the 'other' command names the five mapped types, in map order |
| DatabaseBackup.MappedTypesExcluded | DatabaseUtils/MssqlUtils/DatabaseBackup.py:516 | every type that has its own folder is on the exclude list of the 'other' command |
| DatabaseBackup.BackupPathRule | DatabaseUtils/MssqlUtils/DatabaseBackup.py:52-80 | the setter fails exactly for a missing or blank value; when the last component of the value names the database (trimmed, case-insensitive) the stored path ends in that component, and otherwise it ends in '<server>_<database>' |
| DatabaseBackup.BackupPathAbsolute | DatabaseUtils/MssqlUtils/DatabaseBackup.py:80 | under an absolute working directory the stored path is absolute |
| DatabaseBackup.BackupPathNotIdempotent | DatabaseUtils/MssqlUtils/DatabaseBackup.py:59-67 | storing the stored path again appends a second '<server>_<database>' segment, giving a different path, whenever that segment does not itself name the database |
| DatabaseBackup.FirstNonEmpty | DatabaseUtils/MssqlUtils/DatabaseBackup.py:478-481 | a date the scan settles on is never empty |
| DatabaseBackup.FirstNonEmptyAppend | DatabaseUtils/MssqlUtils/DatabaseBackup.py:478-481 | the first non-empty token of a concatenation is that of the first part when it has one, and that of the second part otherwise |
| DatabaseBackup.LastRunNone | DatabaseUtils/MssqlUtils/DatabaseBackup.py:466-485 | the scan gives None exactly when every line of the log starts with 'mssql-scripter' |
| DatabaseBackup.KeptTokensEmptyTokens | DatabaseUtils/MssqlUtils/DatabaseBackup.py:475-481 | lines that are skipped or whose leading token is empty never settle the date |
| DatabaseBackup.KeptTokensAppend | DatabaseUtils/MssqlUtils/DatabaseBackup.py:475-481 | the kept tokens of a concatenation are the concatenated kept tokens |
| DatabaseBackup.LastRunFirstDate | DatabaseUtils/MssqlUtils/DatabaseBackup.py:466-485 | the date is the leading space-separated token of the first line that does not start with 'mssql-scripter' and whose leading token is non-empty |
| DatabaseBackup.LastRunSkip | DatabaseUtils/MssqlUtils/DatabaseBackup.py:476-477 | a line starting with 'mssql-scripter' leaves the date where it was |
| DatabaseBackup.LastRunAssign | DatabaseUtils/MssqlUtils/DatabaseBackup.py:481 | while the date is unset or empty, a kept line sets it to the line's leading token |
| DatabaseBackup.LastRunSettled | DatabaseUtils/MssqlUtils/DatabaseBackup.py:478-479 | once the date is non-empty the scan stops: later lines do not change it |
| DatabaseBackup.FullNames | DatabaseUtils/MssqlUtils/DatabaseBackup.py:609-615 | one name per row, in row order, each the row's FullName |
| DatabaseBackup.ChangesMembers | DatabaseUtils/MssqlUtils/DatabaseBackup.py:609-615 | a name is reported exactly when an object with that 'schema.name' passes the last-run filter; without a usable last run every object is reported |
| DatabaseBackup.CommandsSingle | DatabaseUtils/MssqlUtils/DatabaseBackup.py:336-381 | one argument list gives one command that runs mssql-scripter with it and the default options |
| DatabaseBackup.CommandsAppend | DatabaseUtils/MssqlUtils/DatabaseBackup.py:336-381 | the commands for concatenated argument lists are the concatenated commands |
| DatabaseBackup.CommandsEach | DatabaseUtils/MssqlUtils/DatabaseBackup.py:336-381 | one command per argument list, in order, the j-th running mssql-scripter with the j-th list |
| DatabaseBackup.MappedValueNonEmpty | DatabaseUtils/MssqlUtils/DatabaseBackup.py:23-29 | every object type has a non-empty value |
| DatabaseBackup.LeadArgsBuilt | DatabaseUtils/MssqlUtils/DatabaseBackup.py:208-222 | with default options and without script-create the builder starts a backup command with the connection, drop-create, file-per-object and file-path flags |
| DatabaseBackup.FolderArgsShape | DatabaseUtils/MssqlUtils/DatabaseBackup.py:413-445 | for a mapped type under an absolute stored path the builder yields the arguments of one folder command writing to '<path>/<folder>' and including that one type |
| DatabaseBackup.TypeBlocks | DatabaseUtils/MssqlUtils/DatabaseBackup.py:224-305 | for a folder command the file-path block is the folder, the include-types block is the single type value, and there are no exclude-types and no trailing flags |
| DatabaseBackup.OtherArgsShape | DatabaseUtils/MssqlUtils/DatabaseBackup.py:511-524 | under an absolute stored path the directory of the 'other' command is '<path>/<folder>' and the builder yields its arguments for it |
| DatabaseBackup.OtherArgsBuilt | DatabaseUtils/MssqlUtils/DatabaseBackup.py:512-524 | the 'other' command excludes the five mapped types and ends with check-for-existence and change-tracking |
| DatabaseBackup.ExcludingBuilt | DatabaseUtils/MssqlUtils/DatabaseBackup.py:172-305 | for any non-empty exclude list the builder gives the leading flags, the exclude block, the include-objects block and the two trailing flags |
| DatabaseBackup.ExcludingBlocks | DatabaseUtils/MssqlUtils/DatabaseBackup.py:224-305 | the blocks the builder produces from the options of the 'other' command |
| DatabaseBackup.ScriptTypeFolder | DatabaseUtils/MssqlUtils/DatabaseBackup.py:437-445 | for a mapped type exactly the one folder command is issued, and nothing else is |
| DatabaseBackup.ScriptOtherFolder | DatabaseUtils/MssqlUtils/DatabaseBackup.py:511-524 | for a truthy folder exactly the one 'other' command is issued |
| DatabaseBackup.OtherCommand | DatabaseUtils/MssqlUtils/DatabaseBackup.py:511-524 | the builder succeeds on the options of `script_other_objects`, and the one command issued runs mssql-scripter with its result |
| DatabaseBackup.FolderArgListsSnoc | DatabaseUtils/MssqlUtils/DatabaseBackup.py:538-542 | one more map entry adds that entry's folder command at the end |
| DatabaseBackup.FolderArgListsOfMap | DatabaseUtils/MssqlUtils/DatabaseBackup.py:538-542 | `script_objects_to_folders` issues the five folder commands database, tables, views, functions, procedures, in map order |
| DatabaseBackup.FolderArgListsOfFive | DatabaseUtils/MssqlUtils/DatabaseBackup.py:538-542 | five mapped entries give their five folder commands, in order |
| DatabaseBackup.BackupArgListsShape | DatabaseUtils/MssqlUtils/DatabaseBackup.py:544-564 | in change-only mode without changes nothing runs; otherwise the five folder commands in map order and then the 'other' command writing to '<path>/other', restricted to the changes in change-only mode and unrestricted otherwise |
| DatabaseBackup.AllObjectsMatchesBuilder | DatabaseUtils/MssqlUtils/DatabaseBackup.py:386-411 | the arguments `script_all_objects` builds by hand are those the general builder gives without default options for an absolute target, a blank target meaning the stored path |
| DatabaseBackup.FullScriptArgs | DatabaseUtils/MssqlUtils/DatabaseBackup.py:446-463 | the full-database command writes to standard output: the default options, drop-create with its check-for-existence, no file path, then check-for-existence and change-tracking |
| DatabaseBackup.MssqlDatabaseBackup.constructor | DatabaseUtils/MssqlUtils/DatabaseBackup.py:37-46 | a backup keeps its database and working directory and starts with no path |
| DatabaseBackup.MssqlDatabaseBackup.SetPath | DatabaseUtils/MssqlUtils/DatabaseBackup.py:52-80 | the setter fails with exit(1) exactly when `BackupPath` does, leaving the path unchanged, and otherwise stores `BackupPath`'s value |
| DatabaseBackup.MssqlDatabaseBackup.FolderFor | DatabaseUtils/MssqlUtils/DatabaseBackup.py:121-149 | None for a type without folder; otherwise its folder, joined onto the stored path when is_abspath |
| DatabaseBackup.MssqlDatabaseBackup.ScriptObjectsByTypeToPath | DatabaseUtils/MssqlUtils/DatabaseBackup.py:413-445 | issues no command for an unmapped type and exactly the one folder command for a mapped one |
| DatabaseBackup.MssqlDatabaseBackup.ScriptObjectsToFolders | DatabaseUtils/MssqlUtils/DatabaseBackup.py:528-542 | appends to the trace the folder command of each map entry, in map order, with drop-create and file-per-object |
| DatabaseBackup.MssqlDatabaseBackup.ScriptOtherObjects | DatabaseUtils/MssqlUtils/DatabaseBackup.py:490-526 | issues nothing for a falsy folder (the ValueError is logged) and otherwise the one 'other' command |
| DatabaseBackup.MssqlDatabaseBackup.ScriptAllObjects | DatabaseUtils/MssqlUtils/DatabaseBackup.py:386-411 | issues exactly one mssql-scripter command with the hand-built arguments and returns the action's result for the reply |
| DatabaseBackup.MssqlDatabaseBackup.GetSqlFullScriptedDatabase | DatabaseUtils/MssqlUtils/DatabaseBackup.py:446-463 | issues exactly one mssql-scripter command with those arguments and returns the action's result, the tool's output, for the reply |
| DatabaseBackup.MssqlDatabaseBackup.GetLastRunTime | DatabaseUtils/MssqlUtils/DatabaseBackup.py:466-485 | returns the date `LastRun` gives for the log |
| DatabaseBackup.MssqlDatabaseBackup.GetChangesFromLastRun | DatabaseUtils/MssqlUtils/DatabaseBackup.py:609-615 | returns the FullName of every object the last-run query selects, in query order |
| DatabaseBackup.MssqlDatabaseBackup.DoFullBackup | DatabaseUtils/MssqlUtils/DatabaseBackup.py:544-564 | appends to the trace exactly the commands of `BackupArgLists` for the changes found since the last run |
| DatabaseBackup.Open | DatabaseUtils/MssqlUtils/DatabaseBackup.py:37-80 | construction fails with exit(1) exactly when the setter does; otherwise the fresh backup holds the setter's path, which is absolute under an absolute working directory |
| DatabaseDeployment.CommitRule | DatabaseUtils/DatabaseDeployment.py:237-270 | 'git status' comes first and a failing status ends the step; 'git add .' is issued exactly when the status output, lower-cased, lacks 'nothing to commit'; the push follows in both cases and ends a successful step; a failure names the last command issued |
| DatabaseDeployment.CommitMessageNamesObjects | DatabaseUtils/DatabaseDeployment.py:254-259 | the message is '"<timestamp> - <objects joined by single spaces>"' with the literal double quotes, and the object list splits back into the objects when no name holds a space |
| DatabaseDeployment.JoinTwo | DatabaseUtils/DatabaseDeployment.py:229 | the join of two parts is the first, the separator, the second |
| DatabaseDeployment.SplitAtFirst | DatabaseUtils/DatabaseDeployment.py:229 | splitting at the first separator gives the text before it followed by the split of the rest |
| DatabaseDeployment.SplitHead | DatabaseUtils/DatabaseDeployment.py:229 | the first part of a split is the text before the first separator |
| DatabaseDeployment.LeadingPartsOfDotted | DatabaseUtils/DatabaseDeployment.py:229 | the first two '.'-separated parts of a dotted name, rejoined, are the text before the first '.', the '.', and the text up to the next '.' |
| DatabaseDeployment.LeadingPartsOfTwo | DatabaseUtils/DatabaseDeployment.py:229 | a name that splits on '.' into two or more parts keeps the first two, rejoined with '.' |
| DatabaseDeployment.LeadingPartsPrefix | DatabaseUtils/DatabaseDeployment.py:229 | the first two parts rejoined are the longest prefix of the name with at most one '.', cut just before a second '.' |
| DatabaseDeployment.LeadingPartsOfPlain | DatabaseUtils/DatabaseDeployment.py:229 | a name without '.' is its own leading parts |
| DatabaseDeployment.FirstDotAfter | DatabaseUtils/DatabaseDeployment.py:229 | in 'a.b' with no '.' in a, the first '.' follows a |
| DatabaseDeployment.LeadingPartsOfObjectFile | DatabaseUtils/DatabaseDeployment.py:229 | a file named 'schema.name.<rest>' has 'schema.name' as its key |
| DatabaseDeployment.SelectedPathsStep | DatabaseUtils/DatabaseDeployment.py:228-231 | one more listed name appends its joined path after the earlier ones exactly when its key, trimmed and lower-cased, is a requested object trimmed and lower-cased |
| DatabaseDeployment.SelectedPathsAppend | DatabaseUtils/DatabaseDeployment.py:226-233 | selection keeps listing order: a concatenated listing selects the concatenated paths |
| DatabaseDeployment.SelectedPathsMembers | DatabaseUtils/DatabaseDeployment.py:226-233 | a path is selected exactly when it joins the local path with a listed name whose key is requested |
| DatabaseDeployment.StripKeeps | DatabaseUtils/DatabaseDeployment.py:229 | strip keeps every non-whitespace character and adds none |
| DatabaseDeployment.BracketedNeverRequested | DatabaseUtils/DatabaseDeployment.py:229 | requested names written with brackets, such as '[dbo].[X]', never match a file name without '[' |
| DatabaseDeployment.PathJoinNonEmpty | DatabaseUtils/DatabaseDeployment.py:231 | a joined path of a non-empty name is non-empty, so no collected path is skipped as falsy |
| DatabaseDeployment.JoinedTwiceAbsolute | DatabaseUtils/DatabaseDeployment.py:219-231 | joining a collected path onto an absolute local path a second time changes nothing |
| DatabaseDeployment.JoinedTwiceRelative | DatabaseUtils/DatabaseDeployment.py:219-231 | with a relative local path the executed path holds the local path twice |
| DatabaseDeployment.ExecuteCommandsCons | DatabaseUtils/DatabaseDeployment.py:216-221 | an empty path issues nothing, any other one sqlcmd command for its joined path, ahead of the rest |
| DatabaseDeployment.ExecuteCommandsEach | DatabaseUtils/DatabaseDeployment.py:214-221 | every non-empty collected path is executed exactly once, in collection order |
| DatabaseDeployment.SelectedPathsNonEmpty | DatabaseUtils/DatabaseDeployment.py:226-233 | names in a listing are never empty, so no collected path is empty |
| DatabaseDeployment.ExecuteScript | DatabaseUtils/Database.py:487-513 | nothing is run for an empty path; otherwise one sqlcmd command is issued, and the step fails, naming it, exactly when it exits non-zero |
| DatabaseDeployment.ExecuteEach | DatabaseUtils/DatabaseDeployment.py:216-221 | the sqlcmd commands of the collected paths are issued in order until one fails, and the outcome is that of the first failure, or success |
| DatabaseDeployment.ExecuteEachStep | DatabaseUtils/DatabaseDeployment.py:216-221 | one turn of the loop skips an empty path and otherwise puts its command first among those pending |
| DatabaseDeployment.HardResetGuards | DatabaseUtils/DatabaseDeployment.py:159-184 | the reset stage issues nothing for a missing or empty repository path, a prefix of the three git commands otherwise, and succeeds exactly when the path is usable and all three commands were issued and succeeded |
| DatabaseDeployment.RunAllFollows | DatabaseUtils/DatabaseDeployment.py:149-157 | running a command list issues a prefix of it, all of it on success, and a failed command is the last one issued |
| DatabaseDeployment.ExecFollows | DatabaseUtils/DatabaseDeployment.py:214-221 | the execution stage issues a prefix of its scripts' commands, and all of them, with a non-empty local path, when it succeeds |
| DatabaseDeployment.DeployAfterScript | DatabaseUtils/DatabaseDeployment.py:149-157 | once the reset and the scripting succeeded, the deployment follows its plan |
| DatabaseDeployment.DeployRunAfterScript | DatabaseUtils/DatabaseDeployment.py:149-157 | once the reset and the scripting succeeded, the deployment issues them, then the commit stage, then, only if that succeeded, the execution stage |
| DatabaseDeployment.StagesFollow | DatabaseUtils/DatabaseDeployment.py:154-155 | a commit stage that issues a prefix of its commands, followed on success by an execution stage that follows its own plan, follows the joined plan |
| DatabaseDeployment.DeployFollowsPlan | DatabaseUtils/DatabaseDeployment.py:149-157 | for requested objects all in the source catalog, a missing or empty repository path fails before any command with TypeError or FileNotFoundError; otherwise the deployment issues a prefix of its plan (reset, scripting, commit and push, execution), all of it on success, and a failed command is the last one issued: nothing after a failure runs and nothing before it is undone |
| DatabaseDeployment.MssqlDatabaseDeployment.constructor | DatabaseUtils/DatabaseDeployment.py:122-143 | the deployment keeps the databases, the repository path and the objects it is given |
| DatabaseDeployment.MssqlDatabaseDeployment.DoHardReset | DatabaseUtils/DatabaseDeployment.py:159-184 | a missing repository path fails with TypeError and an empty one with FileNotFoundError before any git command; otherwise issues 'git reset --hard HEAD', 'git pull', 'git checkout master' in that order until one fails |
| DatabaseDeployment.MssqlDatabaseDeployment.ScriptObjects | DatabaseUtils/DatabaseDeployment.py:198-200 | scripts the objects from the source into the destination's local path, as `script_objects` does |
| DatabaseDeployment.MssqlDatabaseDeployment.CommitChanges | DatabaseUtils/DatabaseDeployment.py:237-270 | issues 'git status', then 'git add .' and the commit only when its output lacks 'nothing to commit', then the push, stopping at the first failing command; `CommitRule` states what that run is |
| DatabaseDeployment.MssqlDatabaseDeployment.GetSqlFilePaths | DatabaseUtils/DatabaseDeployment.py:226-233 | a missing local path raises TypeError; otherwise the selected paths, in listing order |
| DatabaseDeployment.MssqlDatabaseDeployment.DeployChanges | DatabaseUtils/DatabaseDeployment.py:214-221 | a missing local path fails with TypeError and an empty one with FileNotFoundError before anything runs; otherwise the sqlcmd commands of the selected paths run in order until one fails |
| DatabaseDeployment.MssqlDatabaseDeployment.Deploy | DatabaseUtils/DatabaseDeployment.py:149-157 | a missing repository path fails with TypeError and an empty one with FileNotFoundError before any command; otherwise runs hard reset, scripting, commit and push, and execution in that order, each only after the previous one succeeded, appending exactly those commands to the trace; `DeployFollowsPlan` relates the run to the plan |
| DatabaseDeployment.HasBadObjects | DatabaseUtils/DatabaseDeployment.py:187-196 | an empty object list raises TypeError; otherwise true exactly when some object, brackets removed, is missing from the source catalog |
| DatabaseDeployment.New | DatabaseUtils/DatabaseDeployment.py:122-147 | construction raises TypeError for an empty object list and ValueError when an object is missing, and succeeds exactly when every object is in the source catalog, before any git or SQL step |
| DatabaseDeployment.GetDatabase | DatabaseUtils/DatabaseDeployment.py:39-53 | None for an empty alias; otherwise the database of the first entry whose trimmed, lower-cased alias matches, and None when none does |
| DatabaseDeployment.DoDeployment | DatabaseUtils/DatabaseDeployment.py:95-99 | only 'stable' (trimmed, case-insensitive) deploys; anything else raises NotImplementedError, and an instance that never received its objects fails with AttributeError |
| DatabaseDeployment.DoDeploymentIgnoresCase | DatabaseUtils/DatabaseDeployment.py:95-96 | 'stable' in any case and with any whitespace on either side deploys the objects |
| Shell.CheckOutput | DatabaseUtils/Database.py:982-985 | a command succeeds exactly when it exits with code 0, giving its standard output, and otherwise raises CalledProcessError naming the command |
| Shell.RunAllPrefix | DatabaseUtils/DatabaseDeployment.py:159-184 | commands run in order until one fails: what was issued is a prefix of the list, all of it on success, and a failure names the last command issued |
| Shell.RunAllStep | DatabaseUtils/DatabaseDeployment.py:159-184 | running a command and then the rest runs the rest only when the command succeeded |
| Shell.PendingStep | DatabaseUtils/DatabaseDeployment.py:216-221 | running the first pending command either ends the replay with its error or leaves the others pending |
| Shell.Runner.constructor | DatabaseUtils/Database.py:982-985 | a runner starts with an empty trace and keeps its environment |
| Shell.Runner.Run | DatabaseUtils/Database.py:982-985 | issuing a command appends it to the trace and gives `check_output`'s result for the environment's reply to it |

## Left out

- Database connections and query execution (pyodbc, pymssql, sqlite3 cursors, commit, rollback) are outside the model. Catalogs are given as sequences of records, and a statement's success or failure comes from an oracle.
- `get_objects` passes `as_dict` to a `get_rows_from_sql` that takes no such argument. As written it raises TypeError, so `get_changes_from_last_run` would fail. The model gives instead the catalog filter the query states (`DatabaseSql.ObjectsQuery`), and `DatabaseBackup.Changes` builds on it.
- Subprocess mechanics are reduced to argument lists in a trace together with an exit code and output from an oracle. This covers `shell=True`, the Windows branch (`platform_system()`), `print` and logging. Python's `str()` of the `git status` bytes is modelled as the output text. The `b'…'` wrapper and the escaped line breaks it adds do not change whether 'nothing to commit' occurs in it.
- The filesystem is modelled through given values:
  - directory listings, file contents, file existence and the log file's lines are parameters;
  - `os.path.join`, `split` and `abspath` are POSIX functions on strings, with `abspath` weaker as stated below;
  - `makedirs`, together with `__make_dirs` and `__create_path`, leaves no trace, so the folders it would create are not modelled;
  - `os.chdir` leaves no trace either, except in the deployment. There, the changes into the repository and into the destination's local path (`DatabaseDeployment.py` lines 162 and 215) fail as in Python for a missing path (TypeError) and an empty one (FileNotFoundError). A non-empty path is taken to exist, so the FileNotFoundError of a path that names no directory is not modelled.
- `get_script_objects` and `get_scripted_database` read the files the tool wrote, which is the filesystem again, so they are not modelled. The helper `__get_sql_full_scripted_database` is modelled.
- Hashing is outside the model. SQL `HASHBYTES('SHA1', …)` is an uninterpreted function, and so are md5 sums.
- Clocks are outside the model. The commit timestamp is a parameter of the deployment, and `TRY_CONVERT` of the last-run date is a given partial function.
- PyStr.AbsPath: joins a relative path onto the working directory and keeps an absolute path as it is. Unlike `os.path.abspath`, it never collapses '.' and '..' segments, repeated slashes or a trailing slash. Under the working directory '/w', 'a/../b' is '/w/b' in Python and '/w/a/../b' in the model. This reaches the `--file-path` scripter argument, the stored backup path and the configuration file's path.
- StringUtil.GetBooleanFromString, ConfigUtil.GetLoggingLevel and StringUtil.GetMoneyFromString treat only the ASCII characters '0' to '9' as digits. Python's `isnumeric()` and the regex `\d` also accept other Unicode digits: '١' gives True and '٢٠' gives INFO in Python, but None and ValueError in the model. Python's `int()` also raises ValueError for a numeric character that is not a decimal digit, such as '²'. In `get_boolean_from_string` that error escapes, while the model returns None.
- The model's `lower()` folds only ASCII letters. Python's also folds non-ASCII letters, so two names that differ only in such a letter compare differently.
- SQL Server compares and orders names by the database collation, which is usually case-insensitive. The model compares and orders them exactly, by character code.
- Python's `list.remove` compares strings. The scripter builder's tokens keep flags apart from values, so a value spelled exactly like the '--include-types' flag would be removed in Python but stays in the model.
- Constructors misspelt `__int__` never run, so the model does not have them. This affects `DatabaseBackup`, `DatabaseDeployment`, `DatabaseDeploymentCollections` and `TaskUtils.Task`. A `DatabaseDeploymentCollections` instance therefore has no `_objects`, which `DatabaseDeployment.DoDeployment` models as AttributeError.
- `Column.unquote_name` is never called, so it is not modelled.
- Lines 36-50 of `bin/db_restore.py` run a fixed read-only query (whether 'dbo.Test' exists) through `get_rows_from_sql` and print its rows. Query execution is outside the model, so these lines are not modelled.
- The comparison rows carry only name, quoted name, type description, definition and hash. The `type`, `create_date` and `modify_date` columns are not read by any caller and are not modelled.
- `_get_arguments_for_list_args` and `_add_list_args_to_args` (in both `Database.py` and `DatabaseBackup.py`) are never called, so they are not modelled.
- `Sqlite3Database` subclasses the module `Database` rather than a class, so it cannot be instantiated. Only its statement splitter and its sequencing are modelled, as though the class could be built.
- Other parts of the repository are not part of this model. These are the network, web-scraping, messaging and HTML helpers, the regex and encoding helpers of `StringUtil.py`, CSV and Excel import, `FileUtil.py`, the directory walks, the data-only enum files (modelled as datatypes where used), and the hard-coded wiring scripts under `bin/`.
- `DatabaseBackup.MssqlDatabaseBackup.ScriptObjectsByTypeToPath` requires an absolute stored path and a well-typed include list. `Open` guarantees the first under an absolute working directory. A wrongly typed list only makes the builder log and drop a flag.
- `DatabaseBackup.MssqlDatabaseBackup.ScriptObjectsToFolders` has the same two requirements.
- `DatabaseBackup.MssqlDatabaseBackup.ScriptOtherObjects` has the same two requirements.
- `DatabaseBackup.MssqlDatabaseBackup.DoFullBackup` requires an absolute stored path, for the same reason.
- `DatabaseDeployment.DeployFollowsPlan` is stated for deployments whose objects all exist in the source catalog. Those are the only deployments `DatabaseDeployment.New` constructs.
