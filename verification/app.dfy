/** The orchestrating component (App.tsx): the single live document plus the
    transient state of the generation dialog, and the transitions the
    component's handlers perform on it. Browser side effects (the confirm
    dialog, printing, the document title) and the external generation call
    are inputs or outputs of these transitions rather than effects. */
module App {
  import opened Types

  /** A single-field update `updateData(field, value)`, one typed variant per
      kind of field so that a value can only land in a field of its type. */
  datatype Update =
    | SetText(textField: TextField, text: string)
    | SetItems(newItems: seq<LineItem>)
    | SetRate(rateField: RateField, rate: real)
  {
    /** The key the update writes. */
    function Target(): Field {
      match this
      case SetText(t, _) => TextKey(t)
      case SetItems(_) => ItemsKey
      case SetRate(r, _) => RateKey(r)
    }

    /** The value the update writes. */
    function NewValue(): Value {
      match this
      case SetText(_, s) => TextValue(s)
      case SetItems(xs) => ItemsValue(xs)
      case SetRate(_, x) => RateValue(x)
    }
  }

  /** The document with text field `t` set to `s` and every other key as it was. */
  function WithText(d: Invoice, t: TextField, s: string): (r: Invoice)
    ensures GetText(r, t) == s
    ensures forall u :: u != t ==> GetText(r, u) == GetText(d, u)
    ensures r.items == d.items && r.taxRate == d.taxRate && r.discountRate == d.discountRate
  {
    match t
    case InvoiceNumber => d.(invoiceNumber := s)
    case Date => d.(date := s)
    case DueDate => d.(dueDate := s)
    case SenderName => d.(senderName := s)
    case SenderPhone => d.(senderPhone := s)
    case SenderEmail => d.(senderEmail := s)
    case SenderAddress => d.(senderAddress := s)
    case SenderWebsite => d.(senderWebsite := s)
    case ClientName => d.(clientName := s)
    case ClientRole => d.(clientRole := s)
    case ClientEmail => d.(clientEmail := s)
    case ClientAddress => d.(clientAddress := s)
    case PaymentMethod1 => d.(paymentMethod1 := s)
    case PaymentMethod2 => d.(paymentMethod2 := s)
  }

  /** `{ ...prev, [field]: value }`: the targeted key holds the new value and
      every other key keeps its value. */
  function UpdateData(d: Invoice, u: Update): (r: Invoice)
    ensures Get(r, u.Target()) == u.NewValue()
    ensures forall f :: f != u.Target() ==> Get(r, f) == Get(d, f)
  {
    match u
    case SetText(t, s) => WithText(d, t, s)
    case SetItems(xs) => d.(items := xs)
    case SetRate(TaxRate, x) => d.(taxRate := x)
    case SetRate(DiscountRate, x) => d.(discountRate := x)
  }

  /** The frame property pins the update down: any document that has the new
      value under the target key and agrees with `d` elsewhere is the result. */
  lemma UpdateDataUnique(d: Invoice, u: Update, e: Invoice)
    requires Get(e, u.Target()) == u.NewValue()
    requires forall f :: f != u.Target() ==> Get(e, f) == Get(d, f)
    ensures e == UpdateData(d, u)
  {
    var r := UpdateData(d, u);
    forall f
      ensures Get(e, f) == Get(r, f)
    {
      if f == u.Target() {
      } else {
        assert Get(e, f) == Get(d, f);
      }
    }
    FieldsDetermineInvoice(e, r);
  }

  /** Writing back the value a key already holds changes nothing. */
  lemma UpdateDataWithCurrentValue(d: Invoice, u: Update)
    requires Get(d, u.Target()) == u.NewValue()
    ensures UpdateData(d, u) == d
  {
    UpdateDataUnique(d, u, d);
  }

  /** The message shown when generation fails, whatever the cause. */
  const GenerationFailedMessage: string := "Falha ao gerar fatura. Por favor, tente novamente."

  /** The component's state: the live document and the dialog's transient state. */
  datatype AppState = AppState(
    data: Invoice,
    isGenerating: bool,
    aiPrompt: string,
    showAiModal: bool,
    error: Optional<string>)

  /** The state at first render: the default document, the dialog closed and empty. */
  function InitialState(date: string, dueDate: string): (s: AppState)
    ensures s.data == InitialInvoice(date, dueDate)
    ensures !s.isGenerating && !s.showAiModal && s.aiPrompt == [] && s.error == Absent
  {
    AppState(InitialInvoice(date, dueDate), false, "", false, Absent)
  }

  /** `handleReset`: after confirmation the document becomes the default one;
      declining leaves the state as it was. The dialog state is untouched. */
  function HandleReset(s: AppState, confirmed: bool, date: string, dueDate: string): (r: AppState)
    ensures confirmed ==> r.data == InitialInvoice(date, dueDate)
    ensures !confirmed ==> r == s
    ensures r.isGenerating == s.isGenerating && r.aiPrompt == s.aiPrompt
    ensures r.showAiModal == s.showAiModal && r.error == s.error
  {
    if confirmed then s.(data := InitialInvoice(date, dueDate)) else s
  }

  /** A confirmed reset forgets every prior edit: its document does not
      depend on the state it started from. */
  lemma ResetForgetsEdits(s1: AppState, s2: AppState, date: string, dueDate: string)
    ensures HandleReset(s1, true, date, dueDate).data == HandleReset(s2, true, date, dueDate).data
  {
  }

  /** `INITIAL_INVOICE` is evaluated once, when the module loads, so a
      confirmed reset returns to exactly the document of the first render,
      and resetting a state that was never edited changes nothing. */
  lemma ResetReturnsToInitial(s: AppState, date: string, dueDate: string)
    ensures HandleReset(s, true, date, dueDate).data == InitialState(date, dueDate).data
    ensures HandleReset(InitialState(date, dueDate), true, date, dueDate) == InitialState(date, dueDate)
  {
  }

  // ---------------------------------------------------------------------
  // The blank-prompt test `!aiPrompt.trim()`.

  /** The code points `String.prototype.trim` strips: the WhiteSpace and
      LineTerminator productions of the ECMAScript language specification
      (TAB, VT, FF, SP, NBSP, ZWNBSP, the other space separators, LF, CR,
      LS and PS). */
  predicate IsJsWhitespace(c: char) {
    || c == '\t' || c == '\n' || c == '\U{000B}' || c == '\U{000C}' || c == '\r'
    || c == ' ' || c == '\U{00A0}' || c == '\U{1680}'
    || ('\U{2000}' <= c <= '\U{200A}')
    || c == '\U{2028}' || c == '\U{2029}' || c == '\U{202F}' || c == '\U{205F}'
    || c == '\U{3000}' || c == '\U{FEFF}'
  }

  /** Every character of `s` is whitespace (the empty string included). */
  predicate IsBlank(s: string) {
    forall i :: 0 <= i < |s| ==> IsJsWhitespace(s[i])
  }

  /** Strip leading whitespace: the result is a suffix of `s`, does not start
      with whitespace, and everything cut off was whitespace. */
  function TrimStart(s: string): (r: string)
    ensures |r| <= |s| && r == s[|s| - |r|..]
    ensures r == [] || !IsJsWhitespace(r[0])
    ensures forall i :: 0 <= i < |s| - |r| ==> IsJsWhitespace(s[i])
    decreases |s|
  {
    if s != [] && IsJsWhitespace(s[0]) then TrimStart(s[1..]) else s
  }

  /** Strip trailing whitespace: the result is a prefix of `s`, does not end
      with whitespace, and everything cut off was whitespace. */
  function TrimEnd(s: string): (r: string)
    ensures |r| <= |s| && r == s[..|r|]
    ensures r == [] || !IsJsWhitespace(r[|r| - 1])
    ensures forall i :: |r| <= i < |s| ==> IsJsWhitespace(s[i])
    decreases |s|
  {
    if s != [] && IsJsWhitespace(s[|s| - 1]) then TrimEnd(s[..|s| - 1]) else s
  }

  /** `s.trim()`: it is empty exactly when `s` is blank, and otherwise it
      starts and ends with a non-whitespace character. */
  function Trim(s: string): (r: string)
    ensures r == [] <==> IsBlank(s)
    ensures r != [] ==> !IsJsWhitespace(r[0]) && !IsJsWhitespace(r[|r| - 1])
  {
    var t := TrimStart(s);
    var r := TrimEnd(t);
    assert t == [] <==> IsBlank(s) by {
      if t != [] {
        assert s[|s| - |t|] == t[0];
      }
    }
    assert r == [] <==> t == [] by {
      if t != [] {
        assert !IsJsWhitespace(t[0]);
      }
    }
    r
  }

  // ---------------------------------------------------------------------
  // The generation flow of `handleAiGenerate`.

  /** What the generation step returned on success: the keys it set. `Absent`
      is a key the result does not have; for `items` it also covers a key
      whose value is `undefined`, which `generatedData.items || prev.items`
      treats the same way. */
  datatype Partial = Partial(
    senderName: Optional<string>,
    clientName: Optional<string>,
    items: Optional<seq<LineItem>>)

  /** The ways generation can fail; the component treats them all alike. */
  datatype FailureKind = MissingApiKey | EmptyResponse | MalformedResponse | ServiceError

  /** The outcome of the awaited generation call, taken as an input. */
  datatype Outcome = Generated(partial: Partial) | Failed(kind: FailureKind)

  /** `{ ...prev, ...generatedData, items: generatedData.items || prev.items }`:
      the sender name, client name and items come from the partial when it
      has them; every other key keeps its value. An empty list is truthy in
      JavaScript, so a generated empty list does replace the rows. */
  function Merge(prev: Invoice, p: Partial): (r: Invoice)
    ensures r.senderName == (if p.senderName.Present? then p.senderName.value else prev.senderName)
    ensures r.clientName == (if p.clientName.Present? then p.clientName.value else prev.clientName)
    ensures r.items == (if p.items.Present? then p.items.value else prev.items)
    ensures forall f :: f !in {TextKey(SenderName), TextKey(ClientName), ItemsKey} ==> Get(r, f) == Get(prev, f)
  {
    prev.(senderName := p.senderName.ValueOr(prev.senderName),
          clientName := p.clientName.ValueOr(prev.clientName),
          items := p.items.ValueOr(prev.items))
  }

  /** Merging the same partial twice is the same as merging it once. */
  lemma MergeIdempotent(prev: Invoice, p: Partial)
    ensures Merge(Merge(prev, p), p) == Merge(prev, p)
  {
  }

  /** A partial that sets no key leaves the document as it was. */
  lemma MergeNothingIsIdentity(prev: Invoice)
    ensures Merge(prev, Partial(Absent, Absent, Absent)) == prev
  {
  }

  /** A partial that sets every key replaces the rows wholesale, whatever
      rows were there before, even with an empty list. */
  lemma MergeReplacesItems(prev: Invoice, name: string, client: string, items: seq<LineItem>)
    ensures Merge(prev, Partial(Present(name), Present(client), Present(items))).items == items
    ensures Merge(prev, Partial(Present(name), Present(client), Present([]))).items == []
  {
  }

  /** The synchronous start of `handleAiGenerate`: a blank prompt returns
      without touching the state; otherwise the pending flag is raised and
      the previous error cleared, and nothing else changes. */
  function BeginGeneration(s: AppState): (r: AppState)
    ensures IsBlank(s.aiPrompt) ==> r == s
    ensures !IsBlank(s.aiPrompt) ==> r.isGenerating && r.error == Absent
    ensures r.data == s.data && r.aiPrompt == s.aiPrompt && r.showAiModal == s.showAiModal
  {
    if Trim(s.aiPrompt) == [] then s
    else s.(isGenerating := true, error := Absent)
  }

  /** The part of `handleAiGenerate` after the awaited call: on success the
      partial is merged, the dialog closed and the prompt cleared; on any
      failure the document is kept whole and the error message set; in both
      cases the pending flag is lowered. */
  function FinishGeneration(s: AppState, o: Outcome): (r: AppState)
    ensures !r.isGenerating
    ensures o.Generated? ==> r.data == Merge(s.data, o.partial) && !r.showAiModal && r.aiPrompt == [] && r.error == s.error
    ensures o.Failed? ==> r.data == s.data && r.showAiModal == s.showAiModal && r.aiPrompt == s.aiPrompt
    ensures o.Failed? ==> r.error == Present(GenerationFailedMessage)
  {
    match o
    case Generated(p) => s.(data := Merge(s.data, p), showAiModal := false, aiPrompt := "", isGenerating := false)
    case Failed(_) => s.(error := Present(GenerationFailedMessage), isGenerating := false)
  }

  /** `handleAiGenerate` as one atomic step that takes the outcome of the
      generation call as an input. */
  function AiGenerate(s: AppState, o: Outcome): (r: AppState)
    ensures IsBlank(s.aiPrompt) ==> r == s
    ensures !IsBlank(s.aiPrompt) ==> !r.isGenerating
    ensures !IsBlank(s.aiPrompt) && o.Generated? ==>
      r.data == Merge(s.data, o.partial) && !r.showAiModal && r.aiPrompt == [] && r.error == Absent
    ensures !IsBlank(s.aiPrompt) && o.Failed? ==>
      r.data == s.data && r.showAiModal == s.showAiModal && r.aiPrompt == s.aiPrompt
      && r.error == Present(GenerationFailedMessage)
  {
    if Trim(s.aiPrompt) == [] then s
    else FinishGeneration(BeginGeneration(s), o)
  }

  /** All failures are one: the resulting state does not depend on which
      of the four causes made generation fail. */
  lemma FailureCauseIrrelevant(s: AppState, k1: FailureKind, k2: FailureKind)
    ensures AiGenerate(s, Failed(k1)) == AiGenerate(s, Failed(k2))
  {
  }

  /** No partial application: a failed attempt leaves every key of the
      document, the rows included, exactly as it was. */
  lemma FailureKeepsDocument(s: AppState, k: FailureKind)
    ensures forall f :: Get(AiGenerate(s, Failed(k)).data, f) == Get(s.data, f)
  {
  }

  /** After a failure the user can retry with the same prompt; a second
      failure leaves the state where the first one did. */
  lemma RetryAfterFailure(s: AppState, k1: FailureKind, k2: FailureKind)
    ensures AiGenerate(AiGenerate(s, Failed(k1)), Failed(k2)) == AiGenerate(s, Failed(k1))
  {
  }

  // ---------------------------------------------------------------------
  // Printing.

  /** `Proposta-${invoiceNumber || 'Nova'}`: the empty string is falsy, so an
      empty number is replaced by "Nova". */
  function PrintTitle(invoiceNumber: string): (t: string)
    ensures |t| >= 9 && t[..9] == "Proposta-"
    ensures invoiceNumber != [] ==> t[9..] == invoiceNumber
    ensures invoiceNumber == [] ==> t[9..] == "Nova"
  {
    "Proposta-" + (if invoiceNumber != [] then invoiceNumber else "Nova")
  }

  /** The default document's number is "PROP-001", so printing it suggests
      "Proposta-PROP-001" rather than the fallback. */
  lemma DefaultPrintTitle(date: string, dueDate: string)
    ensures PrintTitle(InitialInvoice(date, dueDate).invoiceNumber) == "Proposta-PROP-001"
  {
  }

  /** Two different non-empty invoice numbers never share a print title. */
  lemma PrintTitleInjective(n1: string, n2: string)
    requires n1 != [] && n2 != [] && PrintTitle(n1) == PrintTitle(n2)
    ensures n1 == n2
  {
    assert n1 == PrintTitle(n1)[9..];
  }

  /** The fallback collides with a real number: an empty invoice number and
      the number "Nova" suggest the same file name. */
  lemma PrintTitleFallbackCollides()
    ensures PrintTitle("") == PrintTitle("Nova")
  {
  }

  /** `handlePrint`: the title shown while the print dialog is open, and the
      title afterwards, which is always the one from before. */
  method HandlePrint(title: string, d: Invoice) returns (shown: string, after: string)
    ensures shown == PrintTitle(d.invoiceNumber)
    ensures after == title
  {
    var originalTitle := title;
    shown := PrintTitle(d.invoiceNumber);
    after := originalTitle;
  }
}
