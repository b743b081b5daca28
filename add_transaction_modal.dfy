/** src/components/transactions/AddTransactionModal.tsx: the expense form.
    `parseFloat`, `new Date(text)`, `Number.prototype.toString` and the
    formatted clock reading are parameters. */
module AddTransactionModal {
  import opened Wrappers
  import opened Models
  import Seqs
  import Text
  import TransactionStore

  /** The characters the amount field keeps: `[0-9.]`. */
  predicate IsAmountChar(c: char) {
    '0' <= c <= '9' || c == '.'
  }

  /** `value.replace(/[^0-9.]/g, "")`: only digits and dots are left. */
  function Sanitize(value: string): (r: string)
    ensures forall i :: 0 <= i < |r| ==> IsAmountChar(r[i])
  {
    Seqs.FilterMembers(value, IsAmountChar);
    var r := Seqs.Filter(value, IsAmountChar);
    assert forall i :: 0 <= i < |r| ==> r[i] in r;
    r
  }

  /** `s.split(".").length`: one part more than there are dots. */
  function PartsCount(s: string): nat {
    multiset(s)['.'] + 1
  }

  /** A value the amount field accepts: only digits and dots, at most one
      dot. */
  predicate AmountWellFormed(s: string) {
    (forall i :: 0 <= i < |s| ==> IsAmountChar(s[i])) && multiset(s)['.'] <= 1
  }

  /** The sanitised value keeps each digit and dot as often as and in the
      order they were typed, and sanitising it again changes nothing. */
  lemma SanitizeKeepsAmountChars(value: string)
    ensures forall c :: IsAmountChar(c) ==> multiset(Sanitize(value))[c] == multiset(value)[c]
    ensures Seqs.IsSubsequence(Sanitize(value), value)
    ensures Sanitize(Sanitize(value)) == Sanitize(value)
  {
    Seqs.FilterCounts(value, IsAmountChar);
    Seqs.FilterIsSubsequence(value, IsAmountChar);
    Seqs.FilterIdempotent(value, IsAmountChar);
  }

  /** The guard `parts.length > 2` rejects exactly the values typed with
      more than one dot. */
  lemma AmountGuard(value: string)
    ensures PartsCount(Sanitize(value)) > 2 <==> multiset(value)['.'] > 1
    ensures PartsCount(Sanitize(value)) <= 2 ==> AmountWellFormed(Sanitize(value))
  {
    SanitizeKeepsAmountChars(value);
  }

  function Abs(x: real): real {
    if x < 0.0 then -x else x
  }

  /** The comment `handleSubmit` submits: the trimmed text, absent when it
      trims to "". */
  function SubmittedComment(comment: string): Option<string> {
    var trimmed := Text.Trim(comment);
    if trimmed == "" then None else Some(trimmed)
  }

  /** The comment is absent exactly when it is blank, and a submitted one
      neither starts nor ends with white space. */
  lemma SubmittedCommentTrimmed(comment: string)
    ensures SubmittedComment(comment).None? <==> forall i :: 0 <= i < |comment| ==> Text.IsWhiteSpace(comment[i])
    ensures var c := SubmittedComment(comment);
            c.Some? ==> c.value != "" && !Text.IsWhiteSpace(c.value[0]) && !Text.IsWhiteSpace(c.value[|c.value| - 1])
  {
    Text.TrimEmptyIffBlank(comment);
  }

  /** The input `handleSubmit` builds: the absolute value of the parsed
      amount, the submitted comment and the parsed time. */
  function TransactionInput(budgetId: string, amount: string, comment: string, timestamp: string,
                            parseFloat: string -> real, parseDate: string -> Instant): (r: CreateTransactionInput)
    ensures r.budgetId == budgetId && r.amount >= 0.0
    ensures r.amount == parseFloat(amount) || r.amount == -parseFloat(amount)
    ensures r.comment == SubmittedComment(comment)
    ensures r.timestamp == Some(parseDate(timestamp))
  {
    CreateTransactionInput(budgetId, Abs(parseFloat(amount)), SubmittedComment(comment), Some(parseDate(timestamp)))
  }

  class Form {
    var amount: string
    var comment: string
    var timestamp: string
    var isSubmitting: bool

    /** The initial form: the prefilled amount unless it is absent or 0,
        the prefilled comment or "", and the current time. */
    constructor(initialAmount: Option<real>, initialComment: Option<string>, amountText: real -> string, nowText: string)
      ensures amount == if initialAmount.Some? && initialAmount.value != 0.0 then amountText(initialAmount.value) else ""
      ensures comment == initialComment.GetOr("") && timestamp == nowText && !isSubmitting
    {
      amount := if initialAmount.Some? && initialAmount.value != 0.0 then amountText(initialAmount.value) else "";
      comment := initialComment.GetOr("");
      timestamp := nowText;
      isSubmitting := false;
    }

    /** `handleAmountChange`: the sanitised value replaces the amount unless
        it has more than one dot; a value it stores is well formed. */
    method HandleAmountChange(value: string)
      modifies this
      ensures comment == old(comment) && timestamp == old(timestamp) && isSubmitting == old(isSubmitting)
      ensures multiset(value)['.'] > 1 ==> amount == old(amount)
      ensures multiset(value)['.'] <= 1 ==> amount == Sanitize(value) && AmountWellFormed(amount)
      ensures AmountWellFormed(old(amount)) ==> AmountWellFormed(amount)
    {
      var sanitizedValue := Sanitize(value);
      AmountGuard(value);
      if PartsCount(sanitizedValue) > 2 {
        return;
      }
      amount := sanitizedValue;
    }

    /** `handleSubmit`: with an amount and a budget, the input is built and
        handed to the store (`created` is the data layer's answer); a
        successful add clears the form. Without them nothing happens. */
    method HandleSubmit(budget: Option<Budget>, store: TransactionStore.Store, parseFloat: string -> real,
                        parseDate: string -> Instant, created: Result<Transaction>, nowText: string)
      returns (submitted: Option<CreateTransactionInput>)
      modifies this, store
      ensures old(amount) == "" || budget.None? ==> submitted.None? && unchanged(this) && unchanged(store)
      ensures old(amount) != "" && budget.Some? ==>
                && submitted == Some(TransactionInput(budget.value.id, old(amount), old(comment), old(timestamp), parseFloat, parseDate))
                && !isSubmitting
                && (created.Success? ==> store.transactions == [created.value] + old(store.transactions)
                                         && amount == "" && comment == "" && timestamp == nowText)
                && (created.Failure? ==> store.transactions == old(store.transactions) && store.error == Some(TransactionStore.ADD_ERROR)
                                         && amount == old(amount) && comment == old(comment) && timestamp == old(timestamp))
    {
      if amount == "" || budget.None? {
        return None;
      }
      isSubmitting := true;
      var transactionInput := TransactionInput(budget.value.id, amount, comment, timestamp, parseFloat, parseDate);
      var added := store.AddTransaction(created);
      if added.Success? {
        amount, comment, timestamp := "", "", nowText;
      }
      isSubmitting := false;
      submitted := Some(transactionInput);
    }
  }
}
