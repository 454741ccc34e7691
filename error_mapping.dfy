/**
 * The error localisation bridge shared by the budget and expense stores: how a
 * rejected operation's message becomes a translation key plus interpolation
 * parameters, and how the three error fields (`error`, `errorKey`,
 * `dynamicErrorContent`) evolve.
 */
module ErrorMapping {
  import opened Wrappers
  import opened Text
  import opened JsValues

  /** The translation function `t(key, params)` of the active language. */
  type Translate = (string, seq<Prop>) -> string

  const BudgetExistsPrefix := "A budget with the name"
  const ExpenseExistsPrefix := "An expense with the name"
  const BudgetExistsKey := "app.budgetExistsError"
  const ExpenseExistsKey := "app.expenseExistsError"
  const UnexpectedKey := "app.unexpectedError"
  const UnknownName := "Unknown"

  /** The prefix the server puts before the message of an invalid-input exception. */
  const InvalidInputPrefix := "Invalid input: "
  const BudgetAmountReason := "Budget amount cannot be negative or zero."
  const BudgetDescriptionReason := "BudgetDescription must be alphanumeric"
  const BudgetAmountMessage := InvalidInputPrefix + BudgetAmountReason
  const BudgetDescriptionMessage := InvalidInputPrefix + BudgetDescriptionReason
  const InvalidBudgetInputKey := "app.invalidBudgetInput"
  const BudgetDescriptionKey := "app.budgetDescriptionError"

  const LowerInvalidInputPrefix := "invalid input: "
  const ExpenseAmountReason := "expenses amount cannot be negative."
  const ExpenseDescriptionReason := "expensesdescription must be alphanumeric"
  const ExpenseAmountMessage := LowerInvalidInputPrefix + ExpenseAmountReason
  const ExpenseDescriptionMessage := LowerInvalidInputPrefix + ExpenseDescriptionReason
  const InvalidExpenseInputKey := "app.invalidExpenseInput"
  const ExpenseDescriptionKey := "app.expenseDescriptionError"

  /** The budget store's `errorMapping`, keyed by the exact message. */
  const BudgetErrorTable: map<string, string> := map[
    BudgetAmountMessage := InvalidBudgetInputKey,
    BudgetDescriptionMessage := BudgetDescriptionKey,
    "unexpectedError" := UnexpectedKey
  ]

  /** The expense store's `errorMapping`, keyed by the lower-cased message. */
  const ExpenseErrorTable: map<string, string> := map[
    ExpenseAmountMessage := InvalidExpenseInputKey,
    ExpenseDescriptionMessage := ExpenseDescriptionKey,
    "unexpectederror" := UnexpectedKey
  ]

  /** `errorMapping[message] || "app.unexpectedError"` (every table value is a non-empty string). */
  function TableKey(table: map<string, string>, message: string): string {
    if message in table then table[message] else UnexpectedKey
  }

  /** The duplicate's name: the first quoted segment of the message, or "Unknown". */
  function ExtractName(message: string): string {
    FirstQuoted(message).GetOr(UnknownName)
  }

  /** How a failure is classified: a translation key, and the name to interpolate for a duplicate. */
  datatype Classified = Classified(key: string, name: Option<string>)

  /** The classification the budget store applies to a rejected create or update. */
  function ClassifyBudgetFailure(message: string): Classified {
    if StartsWith(message, BudgetExistsPrefix) then Classified(BudgetExistsKey, Some(ExtractName(message)))
    else Classified(TableKey(BudgetErrorTable, message), None)
  }

  /** The classification the expense store applies to a rejected create or update. */
  function ClassifyExpenseFailure(message: string): Classified {
    if StartsWith(message, ExpenseExistsPrefix) then Classified(ExpenseExistsKey, Some(ExtractName(message)))
    else Classified(TableKey(ExpenseErrorTable, ToLower(message)), None)
  }

  const BudgetKeys: set<string> := {BudgetExistsKey, InvalidBudgetInputKey, BudgetDescriptionKey, UnexpectedKey}
  const ExpenseKeys: set<string> := {ExpenseExistsKey, InvalidExpenseInputKey, ExpenseDescriptionKey, UnexpectedKey}

  /**
   * A budget failure is a duplicate exactly when its message has the duplicate
   * prefix; the name is then the first quoted segment, and otherwise the key
   * comes from the exact-match table, falling back to the generic key.
   */
  lemma BudgetClassification(message: string)
    ensures ClassifyBudgetFailure(message).key in BudgetKeys
    ensures ClassifyBudgetFailure(message).key == BudgetExistsKey <==> StartsWith(message, BudgetExistsPrefix)
    ensures ClassifyBudgetFailure(message).name.Some? <==> StartsWith(message, BudgetExistsPrefix)
    ensures ClassifyBudgetFailure(message).key == InvalidBudgetInputKey <==> message == BudgetAmountMessage
    ensures ClassifyBudgetFailure(message).key == BudgetDescriptionKey <==> message == BudgetDescriptionMessage
    ensures !StartsWith(message, BudgetExistsPrefix) && message !in BudgetErrorTable ==>
      ClassifyBudgetFailure(message).key == UnexpectedKey
  {
    assert BudgetAmountMessage[0] == 'I' && BudgetDescriptionMessage[0] == 'I';
    assert BudgetExistsPrefix[0] == 'A';
  }

  /** A message whose lower-cased form starts with 'i' cannot start with the expense duplicate prefix. */
  lemma LowerStartsWithI(message: string)
    requires |ToLower(message)| > 0 && ToLower(message)[0] == 'i'
    ensures !StartsWith(message, ExpenseExistsPrefix)
  {
    assert LowerChar(message[0]) == 'i';
    assert message[0] != 'A';
  }

  /**
   * An expense failure is a duplicate exactly when its message has the
   * duplicate prefix (case-sensitive); every other message is looked up
   * case-insensitively.
   */
  lemma ExpenseClassification(message: string)
    ensures ClassifyExpenseFailure(message).key in ExpenseKeys
    ensures ClassifyExpenseFailure(message).key == ExpenseExistsKey <==> StartsWith(message, ExpenseExistsPrefix)
    ensures ClassifyExpenseFailure(message).name.Some? <==> StartsWith(message, ExpenseExistsPrefix)
    ensures ClassifyExpenseFailure(message).key == InvalidExpenseInputKey <==> ToLower(message) == ExpenseAmountMessage
    ensures ClassifyExpenseFailure(message).key == ExpenseDescriptionKey <==> ToLower(message) == ExpenseDescriptionMessage
    ensures !StartsWith(message, ExpenseExistsPrefix) && ToLower(message) !in ExpenseErrorTable ==>
      ClassifyExpenseFailure(message).key == UnexpectedKey
  {
    if ToLower(message) == ExpenseAmountMessage || ToLower(message) == ExpenseDescriptionMessage {
      assert ExpenseAmountMessage[0] == 'i' && ExpenseDescriptionMessage[0] == 'i';
      LowerStartsWithI(message);
    }
  }

  /** Two messages that differ only in letter case classify alike unless one of them is a duplicate. */
  lemma ExpenseClassificationIgnoresCase(m1: string, m2: string)
    requires ToLower(m1) == ToLower(m2)
    requires !StartsWith(m1, ExpenseExistsPrefix) && !StartsWith(m2, ExpenseExistsPrefix)
    ensures ClassifyExpenseFailure(m1) == ClassifyExpenseFailure(m2)
  {
  }

  /**
   * The name a duplicate message yields: "Unknown" when the message holds no
   * double-quoted non-empty segment, otherwise its leftmost such segment.
   */
  lemma ExtractNameSpec(message: string)
    ensures (forall i, j :: !QuotedAt(message, i, j)) ==> ExtractName(message) == UnknownName
    ensures (exists i, j :: QuotedAt(message, i, j)) ==>
      exists i, j :: QuotedAt(message, i, j) && ExtractName(message) == message[i + 1..j]
                     && forall i2, j2 :: QuotedAt(message, i2, j2) ==> i <= i2
  {
    FirstQuotedCorrect(message);
  }

  /** The error fields a store keeps: the displayed text, its key, and its interpolation parameters. */
  datatype ErrorState = ErrorState(error: string, errorKey: string, dynamic: seq<Prop>)

  const InitialErrorState := ErrorState("", "", [])

  /** `{ name: n }` */
  function NameParams(n: string): seq<Prop> {
    [Prop("name", Str(n))]
  }

  /**
   * The error fields after a classified failure: a duplicate stores its name
   * and renders the key with it; any other failure stores its key and renders
   * it without parameters, leaving the stored parameters as they were.
   */
  function OnFailure(c: Classified, st: ErrorState, t: Translate): (r: ErrorState)
    ensures r.errorKey == c.key
    ensures c.name.None? ==> r.dynamic == st.dynamic
  {
    match c.name
    case Some(n) => ErrorState(t(c.key, NameParams(n)), c.key, NameParams(n))
    case None => ErrorState(t(c.key, []), c.key, st.dynamic)
  }

  /**
   * The budget store's language-change handler: it re-renders the error only
   * when a key is stored AND the stored parameters are not empty.
   */
  function BudgetLanguageChanged(st: ErrorState, t: Translate): (r: ErrorState)
    ensures r.errorKey == st.errorKey && r.dynamic == st.dynamic
    ensures st.errorKey != "" && |st.dynamic| > 0 ==> r.error == t(st.errorKey, st.dynamic)
    ensures !(st.errorKey != "" && |st.dynamic| > 0) ==> r == st
  {
    if st.errorKey != "" && |Keys(st.dynamic)| > 0 then st.(error := t(st.errorKey, st.dynamic)) else st
  }

  /** The expense store's language-change handler: it re-renders whenever a key is stored. */
  function ExpenseLanguageChanged(st: ErrorState, t: Translate): (r: ErrorState)
    ensures r.errorKey == st.errorKey && r.dynamic == st.dynamic
    ensures st.errorKey != "" ==> r.error == t(st.errorKey, st.dynamic)
    ensures st.errorKey == "" ==> r == st
  {
    if st.errorKey != "" then st.(error := t(st.errorKey, st.dynamic)) else st
  }

  /**
   * What a store may hold in its error fields: no key or one of its keys;
   * parameters that are empty or a single `name` string, and parameters only
   * once some key has been stored.
   */
  ghost predicate ErrorInvariant(st: ErrorState, keys: set<string>) {
    && (st.errorKey == "" || st.errorKey in keys)
    && (st.dynamic == [] || (exists n :: st.dynamic == NameParams(n)))
    && (st.dynamic != [] ==> st.errorKey != "")
  }

  /** Every transition of the error fields keeps the budget store's invariant. */
  lemma BudgetTransitionsKeepInvariant(st: ErrorState, message: string, text: string, t: Translate)
    requires ErrorInvariant(st, BudgetKeys)
    ensures ErrorInvariant(OnFailure(ClassifyBudgetFailure(message), st, t), BudgetKeys)
    ensures ErrorInvariant(st.(error := text), BudgetKeys)
    ensures ErrorInvariant(BudgetLanguageChanged(st, t), BudgetKeys)
  {
    BudgetClassification(message);
  }

  /** Every transition of the error fields keeps the expense store's invariant. */
  lemma ExpenseTransitionsKeepInvariant(st: ErrorState, message: string, text: string, t: Translate)
    requires ErrorInvariant(st, ExpenseKeys)
    ensures ErrorInvariant(OnFailure(ClassifyExpenseFailure(message), st, t), ExpenseKeys)
    ensures ErrorInvariant(st.(error := text), ExpenseKeys)
    ensures ErrorInvariant(ExpenseLanguageChanged(st, t), ExpenseKeys)
  {
    ExpenseClassification(message);
  }

  /**
   * Once a key is stored it is never cleared: a later failure replaces it by
   * another non-empty key, and a success, a reset or a language change only
   * touches the displayed text. A later language change in the expense store
   * therefore shows the old error again, even after a reset or a success.
   */
  lemma ErrorKeyIsSticky(st: ErrorState, message: string, text: string, t: Translate)
    requires st.errorKey != ""
    ensures OnFailure(ClassifyBudgetFailure(message), st, t).errorKey != ""
    ensures OnFailure(ClassifyExpenseFailure(message), st, t).errorKey != ""
    ensures st.(error := text).errorKey == st.errorKey
    ensures ExpenseLanguageChanged(st.(error := text), t).error == t(st.errorKey, st.dynamic)
  {
    BudgetClassification(message);
    ExpenseClassification(message);
  }

  /** The text both stores show for a failure without a message. */
  const GenericError := "An unexpected error occurred"

  /** `error.message || 'An unexpected error occurred'` */
  function MessageOr(message: string): (r: string)
    ensures r != ""
    ensures message != "" ==> r == message
  {
    if message != "" then message else GenericError
  }
}
