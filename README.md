# Lilina MySQL adapter: statement assembly

Lilina's MySQL database adapter offers five operations over a database
reached through PDO: `retrieve`, `count`, `insert`, `update` and `delete`.
Each one merges its options with defaults and checks them. Each failed check
raises a `Lilina_DB_Exception` with a fixed message and code. The operation
then prefixes the table name with the adapter's `prefix` (default
`lilina_`) and assembles one SQL statement with named placeholders. It binds
every value as a `:name` parameter, executes the statement, and turns the
answer into its result. `build_where` turns the `where` option into the
clause ``` WHERE (`c1` op1 :k1 AND `c2` op2 :k2 ...)``` plus the array of
placeholder values. In `update`, a placeholder whose column the payload
already sets is renamed with the prefix `__noconflict_`.

The model has four modules:

- `PhpArrays` (`php_arrays.dfy`): the PHP values the adapter handles, and
  PHP arrays as ordered maps with one entry per key. It covers assignment
  `$m[$k] = $v`, `isset`, `empty`, `implode`, and the `bindValue(':' . $k, $v)`
  loop. It proves that the last assignment to a key wins and that keys
  nothing assigns are untouched.
- `SqlText` (`sql_text.dfy`): the SQL text as functions: operator
  normalisation, placeholder names, the WHERE clause and its values,
  ORDER BY, the two pagination forms, and the five statement texts. It also
  has a reader for MySQL's `LIMIT n [OFFSET m]` syntax. The reader is used to
  prove what the pagination clauses select, including the 2^64 - 1 row count
  that `retrieve` and `count` write when only an offset is given.
- `ResultShaping` (`result_shaping.dfy`): what `retrieve` does with the
  fetched rows. Rows are kept by position or re-keyed by the `reindex`
  column (a later row wins a shared key). Each is then either kept as an
  array or copied into an object of the `fetchas` class.
- `MySQL` (`mysql_adapter.dfy`): the class `MySQLAdapter`, whose `prefix` is
  fixed at construction. Its methods follow the PHP code step by step, and
  `BuildWhere` and the copy loops keep their loops. PDO is a parameter
  `driver`, a function from the prepared statement (its text and its bound
  parameters) to the outcome of executing it. The outcome is the rows,
  `execute()` returning false, or a thrown `PDOException` with its SQLSTATE.
  Each operation returns the statement it prepared (none when a check failed
  first) and its result or error. Its contract gives:
  - the order in which the checks fail;
  - the exact statement prepared;
  - how the outcome becomes the result. That includes the SQLSTATE 23000
    mapping to `db.insert.duplicate` in `insert`. Every other
    `PDOException` is passed on.

Behaviours of the code worth knowing, all of which the model follows:

- The field list of `retrieve` is joined with `, ` and not quoted.
- An empty `where` adds no clause in `retrieve` and `count`.
- Conditions are joined with ` AND ` inside one pair of parentheses.
- Operators other than `==`, `===`, `!=` and `!==` pass through unchanged.
- The renaming test in `build_where` is `isset`. A payload column set to
  null is therefore not renamed. Its SET placeholder and the condition's
  placeholder are then the same `:column`, so the column is set to the
  condition's value instead of NULL (`UpdateNullPayloadTakesConditionValue`).
- Two conditions on the same column share one placeholder. Only the last
  condition's value is bound (`WhereBindsLastWins`), and both conditions
  compare against it. With emulated prepares off, PDO documents a named
  marker used twice in one statement as an error.
- The reindexing key of a float column value is its integer part, so rows
  carrying 1.2 and 1.7 land under the same key 1 (`FloatKeysCollide`).
- `update` and `delete` never write an OFFSET.

## Model

| member | source | states |
|---|---|---|
| `MySQL.MySQLAdapter.constructor` | inc/core/Lilina/DB/Adapter/MySQL.php:31-47 | The prefix is the one configured, or `lilina_` when none is. |
| `MySQL.MySQLAdapter.BuildWhere` | inc/core/Lilina/DB/Adapter/MySQL.php:397-425 | Fails with `db.general.invalidwhere` exactly when some condition is not an array. Otherwise returns the WHERE text over all condition fragments, in order, and the placeholder values. |
| `SqlText.PlaceholderKey` | inc/core/Lilina/DB/Adapter/MySQL.php:414-417 | A condition's placeholder is its column name, except when the payload sets that column to a non-null value: then it is the column name behind `__noconflict_`. |
| `SqlText.NormalizeOp` | inc/core/Lilina/DB/Adapter/MySQL.php:404-413 | The operator becomes `=` exactly for `=`, `==` and `===`, and `!=` exactly for `!=` and `!==`. Others are unchanged. No PHP-only operator survives. |
| `SqlText.WhereBinds` | inc/core/Lilina/DB/Adapter/MySQL.php:414-420 | The placeholder values are keyed by exactly the conditions' placeholder names, with at most one entry per condition. |
| `SqlText.WhereBindsLastWins` | inc/core/Lilina/DB/Adapter/MySQL.php:414-420 | When conditions share a placeholder, the last one's value is bound. |
| `SqlText.WhereParameters` | inc/core/Lilina/DB/Adapter/MySQL.php:414-420 | Binding the WHERE values gives a `:name` parameter for every condition placeholder and no other parameter. |
| `SqlText.UpdateParameters` | inc/core/Lilina/DB/Adapter/MySQL.php:303-332 | `update` binds a parameter for every SET placeholder and every condition placeholder, and nothing else. |
| `SqlText.UpdateKeepsPayload` | inc/core/Lilina/DB/Adapter/MySQL.php:310-313 | A payload column with a non-null value keeps its own value in the merged values, whatever the conditions on that column. |
| `SqlText.UpdateBindsConditions` | inc/core/Lilina/DB/Adapter/MySQL.php:310-313 | In `update`, each condition's placeholder holds that condition's value (the last one, when several share it). |
| `SqlText.UpdateNullPayloadTakesConditionValue` | inc/core/Lilina/DB/Adapter/MySQL.php:414-417 | A payload column set to null is not renamed, and the merged values carry the condition's value under its name. |
| `SqlText.WhereTextIgnoresValues` | inc/core/Lilina/DB/Adapter/MySQL.php:414-422 | Condition values never enter the WHERE text. Only columns, operators and which payload columns are set do. |
| `SqlText.InsertTextIgnoresValues` | inc/core/Lilina/DB/Adapter/MySQL.php:242-247 | Payload values never enter the INSERT text. |
| `SqlText.UpdateTextIgnoresValues` | inc/core/Lilina/DB/Adapter/MySQL.php:303-326 | Payload and condition values do not enter the UPDATE text. A payload value matters only through whether it is null. |
| `SqlText.SelectTextIgnoresValues` | inc/core/Lilina/DB/Adapter/MySQL.php:80-112 | Condition values do not enter the SELECT text. |
| `SqlText.CountTextIgnoresValues` | inc/core/Lilina/DB/Adapter/MySQL.php:172-196 | Condition values do not enter the COUNT text. |
| `SqlText.DeleteTextIgnoresValues` | inc/core/Lilina/DB/Adapter/MySQL.php:365-381 | Condition values do not enter the DELETE text. |
| `SqlText.NatToStringRoundTrip` | inc/core/Lilina/DB/Adapter/MySQL.php:99-110 | A number written into the LIMIT clause reads back as itself. |
| `SqlText.OrderByClause` | inc/core/Lilina/DB/Adapter/MySQL.php:91-96 | Defines the ORDER BY part of `retrieve`, `update` and `delete` (also lines 317-322 and 372-377). It is empty exactly when there is no non-empty key. Otherwise it starts with `` ORDER BY ` `` and ends in ` DESC` exactly when the direction is `desc`. |
| `SqlText.PaginationClause` | inc/core/Lilina/DB/Adapter/MySQL.php:98-110 | Defines the LIMIT/OFFSET part of `retrieve` and `count` (also lines 182-194). It is empty exactly when there is neither a limit nor a non-zero offset. What it selects is stated by the two lemmas below. |
| `SqlText.LimitOnlyClause` | inc/core/Lilina/DB/Adapter/MySQL.php:324-326 | Defines the LIMIT part of `update` and `delete` (also lines 379-381). It is empty exactly when there is no limit. |
| `SqlText.SelectText` | inc/core/Lilina/DB/Adapter/MySQL.php:80-112 | Defines the SELECT statement: the field list and prefixed table, then the WHERE, ORDER BY and pagination clauses, then `;`. |
| `SqlText.CountText` | inc/core/Lilina/DB/Adapter/MySQL.php:172-196 | Defines the `SELECT COUNT(*)` statement: the prefixed table, then the WHERE and pagination clauses, then `;`. |
| `SqlText.InsertText` | inc/core/Lilina/DB/Adapter/MySQL.php:242-247 | Defines the INSERT statement. It starts with `INSERT INTO <table> SET `, followed by the SET list, which is empty exactly when the payload is. |
| `SqlText.UpdateText` | inc/core/Lilina/DB/Adapter/MySQL.php:303-326 | Defines the UPDATE statement: the SET list, then always a WHERE clause, then ORDER BY and LIMIT. |
| `SqlText.DeleteText` | inc/core/Lilina/DB/Adapter/MySQL.php:365-381 | Defines the DELETE statement: the prefixed table, then always a WHERE clause, then ORDER BY and LIMIT. |
| `SqlText.ArrayMerge` | inc/core/Lilina/DB/Adapter/MySQL.php:313 | `array_merge` on string keys: the keys of both arrays, each holding the second array's value where it has one and the first's otherwise. |
| `SqlText.PaginationReadBack` | inc/core/Lilina/DB/Adapter/MySQL.php:98-110 | The pagination of `retrieve` and `count` reads as the limit with the offset when it is non-zero. With an offset and no limit, it reads as 18446744073709551615 rows from the offset. With neither, there is no clause. |
| `SqlText.PaginationSelectsRequested` | inc/core/Lilina/DB/Adapter/MySQL.php:98-110 | For any result of at most 2^64 - 1 rows, that clause keeps exactly the rows requested. These are the rows after `offset`, at most `limit` of them, or all the rest when there is no limit. |
| `SqlText.LimitOnlyReadBack` | inc/core/Lilina/DB/Adapter/MySQL.php:324-326 | The LIMIT of `update` and `delete` reads back as the limit with no offset. |
| `PhpArrays.KeyOf` | inc/core/Lilina/DB/Adapter/MySQL.php:133-134 | The key a column value becomes in `$new[$key]`. Null and strings give string keys, and only null and `""` give `""`. Booleans, integers and floats give integer keys, a float losing its fractional part toward zero. |
| `PhpArrays.FloatKeysCollide` | inc/core/Lilina/DB/Adapter/MySQL.php:133-134 | 1.2 and 1.7 both become key 1, and -1.7 and -1.2 both become -1. |
| `ResultShaping.Reindexed` | inc/core/Lilina/DB/Adapter/MySQL.php:129-138 | Re-keyed rows are keyed by exactly the values the rows carry in the `reindex` column, with no more entries than rows. |
| `ResultShaping.ReindexLastRowWins` | inc/core/Lilina/DB/Adapter/MySQL.php:132-135 | A row is found under its `reindex` value unless a later row carries the same value. |
| `ResultShaping.GetWrapped` | inc/core/Lilina/DB/Adapter/MySQL.php:140-147 | Applying `fetchas` keeps every key and its position, and wraps the row the key held. |
| `ResultShaping.ShapedEntry` | inc/core/Lilina/DB/Adapter/MySQL.php:127-149 | Without `reindex`, row `i` is the result under key `i`. With it, a row is under its column value unless a later row shares it. The row comes back wrapped as `fetchas` asks. |
| `ResultShaping.ShapedKeys` | inc/core/Lilina/DB/Adapter/MySQL.php:127-149 | The keys of the result are 0 to n-1 without `reindex`, and the rows' `reindex` values with it. |
| `MySQL.MySQLAdapter.ReindexRows` | inc/core/Lilina/DB/Adapter/MySQL.php:129-138 | The loop computes the re-keyed rows. |
| `MySQL.MySQLAdapter.CopyFields` | inc/core/Lilina/DB/Adapter/MySQL.php:143-145 | Setting one property per field gives an object holding exactly the row's fields and values, in order. |
| `MySQL.MySQLAdapter.FetchInto` | inc/core/Lilina/DB/Adapter/MySQL.php:140-147 | Every entry is replaced under its own key by an object of the `fetchas` class that carries its row. |
| `MySQL.MySQLAdapter.AssignmentList` | inc/core/Lilina/DB/Adapter/MySQL.php:243-246 | One `` `k` = :k `` fragment per payload entry, in payload order. |
| `MySQL.MySQLAdapter.BindValues` | inc/core/Lilina/DB/Adapter/MySQL.php:115-119 | The bound parameters are exactly `:k` for the keys `k`, and each holds the value stored under `k`. |
| `MySQL.Raised` | inc/core/Lilina/DB/Adapter/MySQL.php:68-69 | The exception an option check raises carries that check's message and code string (the same for every operation's checks). It is a validation error. |
| `MySQL.CodeNamesDistinct` | inc/core/Lilina/DB/Adapter/MySQL.php:228-239 | The adapter's code strings (`db.general.missingtable`, `db.insert.missingprimary`, ...) tell their errors apart. |
| `MySQL.FirstColumn` | inc/core/Lilina/DB/Adapter/MySQL.php:210 | `fetchColumn(0)`: false when there is no row, otherwise the value of the first column of the first row. |
| `MySQL.MySQLAdapter.Retrieve` | inc/core/Lilina/DB/Adapter/MySQL.php:55-150 | A missing table, then a non-array condition, fails before anything is prepared. Otherwise the SELECT with its clauses and the WHERE parameters is prepared and executed. Rows are shaped by `reindex` and `fetchas`. `execute()` returning false raises the driver's message, and a `PDOException` passes through. |
| `MySQL.MySQLAdapter.Count` | inc/core/Lilina/DB/Adapter/MySQL.php:158-211 | The same checks as `retrieve`. Prepares `SELECT COUNT(*)` with the WHERE clause and pagination. The result is the first column of the first row, or false when there is none. |
| `MySQL.MySQLAdapter.Insert` | inc/core/Lilina/DB/Adapter/MySQL.php:220-270 | The checks fail in this order: table, then primary key, then a payload that is not an array or convertible object. The INSERT ... SET binds every payload entry. SQLSTATE 23000 becomes `db.insert.duplicate`, any other `PDOException` passes on, and success returns true. |
| `MySQL.MySQLAdapter.Update` | inc/core/Lilina/DB/Adapter/MySQL.php:279-340 | The checks fail in this order: table, then conditions, then payload, then a non-array condition. The UPDATE ... SET ... WHERE is followed by ORDER BY and LIMIT. It binds the payload merged with the WHERE values, under renamed placeholders for columns the payload sets. |
| `MySQL.MySQLAdapter.Delete` | inc/core/Lilina/DB/Adapter/MySQL.php:348-395 | The checks fail in this order: table, then conditions, then a non-array condition. DELETE ... WHERE is followed by ORDER BY and LIMIT, and binds the WHERE values. |

## Left out

- Connection setup (the DSN, the `PDO` constructor, `setAttribute`) is I/O. The adapter's state is its `prefix` alone.
- PDO itself (`prepare`, `bindValue`, `execute`, `errorInfo`, `fetchAll`, `fetchColumn`) is the `driver` parameter. The model does not run SQL, and `prepare` throwing is not modelled.
- `object_to_array` belongs to the base adapter class, which is not part of this model. An object payload carries what that conversion returns (`ObjectData(converted)`).
- `fetchas` objects are values. They are modelled as the class name and the properties set on them. Constructors, default properties, `__set` hooks and object identity are not modelled.
- PHP's loose typing is not modelled: `limit` and `offset` are naturals compared strictly with 0, and the SQLSTATE comparison in `switch` is string equality. Numeric-string array keys are not turned into integers, so `array_merge` never renumbers keys.
- `PhpArrays.Value` has no array alternative: a payload entry whose value is an array, which the code binds without checking, is not modelled. Floats are exact real numbers, so rounding, NaN and infinities are not modelled.
- Malformed condition arrays (missing indices, non-string columns) are not modelled. A condition is either a complete `(column, operator, value)` triple or "not an array". A `where` option that is not an array is not modelled.
- An explicitly null `prefix` option is not modelled.
- `inc/core/class-feeds.php`, `inc/core/plugin-functions.php` and `inc/core/Lilina/Updater/Plugins.php` are callers of the database layer and are not part of this model.
- `Lilina_DB_Exception` is taken not to be a `PDOException`, so the `catch` in `insert` sees only exceptions thrown by `execute()`.
- Concurrency and transactions are not modelled.
