/** The proposal record (types.ts): line items, the document, a field-addressed
    view of the document used to state single-field updates, and the fixed
    default document. */
module Types {

  /** A value that may be missing: an optional key of a TypeScript object
      (`key?: T`) or a state that may hold `null`. */
  datatype Optional<T> = Absent | Present(value: T) {
    /** The held value, or `fallback` when there is none. A generated
        `items` list reaches the document through `generatedData.items ||
        prev.items`; a generated sender or client name through the object
        spread, which keeps the previous value when the key is absent. */
    function ValueOr(fallback: T): T {
      if Present? then value else fallback
    }
  }

  /** One billable row. Prices are exact reals (no IEEE-754 rounding); the
      quantity is an unbounded integer, since nothing in the editor keeps it
      non-negative. */
  datatype LineItem = LineItem(id: string, name: string, description: string, price: real, quantity: int)

  /** The whole proposal/invoice document. */
  datatype Invoice = Invoice(
    invoiceNumber: string,
    date: string,
    dueDate: string,
    senderName: string,
    senderPhone: string,
    senderEmail: string,
    senderAddress: string,
    senderWebsite: string,
    clientName: string,
    clientRole: string,
    clientEmail: string,
    clientAddress: string,
    items: seq<LineItem>,
    taxRate: real,
    discountRate: real,
    paymentMethod1: string,
    paymentMethod2: string)

  /** The fourteen free-text fields of the document. */
  datatype TextField =
    | InvoiceNumber | Date | DueDate
    | SenderName | SenderPhone | SenderEmail | SenderAddress | SenderWebsite
    | ClientName | ClientRole | ClientEmail | ClientAddress
    | PaymentMethod1 | PaymentMethod2

  /** The two percentage fields. */
  datatype RateField = TaxRate | DiscountRate

  /** Every key of the document, grouped by the type of its value. */
  datatype Field = TextKey(text: TextField) | ItemsKey | RateKey(rate: RateField)

  /** The value stored under a key. */
  datatype Value = TextValue(s: string) | ItemsValue(items: seq<LineItem>) | RateValue(x: real)

  function GetText(d: Invoice, t: TextField): string {
    match t
    case InvoiceNumber => d.invoiceNumber
    case Date => d.date
    case DueDate => d.dueDate
    case SenderName => d.senderName
    case SenderPhone => d.senderPhone
    case SenderEmail => d.senderEmail
    case SenderAddress => d.senderAddress
    case SenderWebsite => d.senderWebsite
    case ClientName => d.clientName
    case ClientRole => d.clientRole
    case ClientEmail => d.clientEmail
    case ClientAddress => d.clientAddress
    case PaymentMethod1 => d.paymentMethod1
    case PaymentMethod2 => d.paymentMethod2
  }

  /** The value of document `d` under key `f` (the `data[field]` of the source). */
  function Get(d: Invoice, f: Field): Value {
    match f
    case TextKey(t) => TextValue(GetText(d, t))
    case ItemsKey => ItemsValue(d.items)
    case RateKey(TaxRate) => RateValue(d.taxRate)
    case RateKey(DiscountRate) => RateValue(d.discountRate)
  }

  /** Two documents that agree on every key are the same document, so a
      statement about `Get` under every key pins a document down completely. */
  lemma FieldsDetermineInvoice(a: Invoice, b: Invoice)
    requires forall f :: Get(a, f) == Get(b, f)
    ensures a == b
  {
    assert a.invoiceNumber == b.invoiceNumber by { assert Get(a, TextKey(InvoiceNumber)) == Get(b, TextKey(InvoiceNumber)); }
    assert a.date == b.date by { assert Get(a, TextKey(Date)) == Get(b, TextKey(Date)); }
    assert a.dueDate == b.dueDate by { assert Get(a, TextKey(DueDate)) == Get(b, TextKey(DueDate)); }
    assert a.senderName == b.senderName by { assert Get(a, TextKey(SenderName)) == Get(b, TextKey(SenderName)); }
    assert a.senderPhone == b.senderPhone by { assert Get(a, TextKey(SenderPhone)) == Get(b, TextKey(SenderPhone)); }
    assert a.senderEmail == b.senderEmail by { assert Get(a, TextKey(SenderEmail)) == Get(b, TextKey(SenderEmail)); }
    assert a.senderAddress == b.senderAddress by { assert Get(a, TextKey(SenderAddress)) == Get(b, TextKey(SenderAddress)); }
    assert a.senderWebsite == b.senderWebsite by { assert Get(a, TextKey(SenderWebsite)) == Get(b, TextKey(SenderWebsite)); }
    assert a.clientName == b.clientName by { assert Get(a, TextKey(ClientName)) == Get(b, TextKey(ClientName)); }
    assert a.clientRole == b.clientRole by { assert Get(a, TextKey(ClientRole)) == Get(b, TextKey(ClientRole)); }
    assert a.clientEmail == b.clientEmail by { assert Get(a, TextKey(ClientEmail)) == Get(b, TextKey(ClientEmail)); }
    assert a.clientAddress == b.clientAddress by { assert Get(a, TextKey(ClientAddress)) == Get(b, TextKey(ClientAddress)); }
    assert a.paymentMethod1 == b.paymentMethod1 by { assert Get(a, TextKey(PaymentMethod1)) == Get(b, TextKey(PaymentMethod1)); }
    assert a.paymentMethod2 == b.paymentMethod2 by { assert Get(a, TextKey(PaymentMethod2)) == Get(b, TextKey(PaymentMethod2)); }
    assert a.items == b.items by { assert Get(a, ItemsKey) == Get(b, ItemsKey); }
    assert a.taxRate == b.taxRate by { assert Get(a, RateKey(TaxRate)) == Get(b, RateKey(TaxRate)); }
    assert a.discountRate == b.discountRate by { assert Get(a, RateKey(DiscountRate)) == Get(b, RateKey(DiscountRate)); }
  }

  /** The identifiers of a list of items, in list order. */
  function Ids(items: seq<LineItem>): seq<string> {
    seq(|items|, i requires 0 <= i < |items| => items[i].id)
  }

  /** Some item of the list carries identifier `id`. */
  predicate HasId(items: seq<LineItem>, id: string) {
    exists i :: 0 <= i < |items| && items[i].id == id
  }

  /** The document invariant: no two items share an identifier. */
  predicate IdsDistinct(items: seq<LineItem>) {
    forall i, j :: 0 <= i < j < |items| ==> items[i].id != items[j].id
  }

  /** Distinctness one row at a time: a non-empty list has distinct
      identifiers exactly when its first identifier does not occur in the
      rest and the rest has distinct identifiers. */
  lemma IdsDistinctCons(items: seq<LineItem>)
    requires items != []
    ensures IdsDistinct(items) <==> !HasId(items[1..], items[0].id) && IdsDistinct(items[1..])
  {
    var tail := items[1..];
    if IdsDistinct(items) {
      forall i | 0 <= i < |tail|
        ensures tail[i].id != items[0].id
      {
        assert tail[i] == items[i + 1];
      }
      forall i, j | 0 <= i < j < |tail|
        ensures tail[i].id != tail[j].id
      {
        assert tail[i] == items[i + 1] && tail[j] == items[j + 1];
      }
    }
    if !HasId(tail, items[0].id) && IdsDistinct(tail) {
      forall i, j | 0 <= i < j < |items|
        ensures items[i].id != items[j].id
      {
        assert items[j] == tail[j - 1];
        if i > 0 {
          assert items[i] == tail[i - 1];
        }
      }
    }
  }

  /** The four rows of the default document. */
  const DefaultItems: seq<LineItem> := [
    LineItem("1", "Identidade Visual",
      "Pacote completo de identidade visual incluindo logo, paleta de cores e tipografia.", 1000.0, 2),
    LineItem("2", "Desenvolvimento Web",
      "Implementação Frontend da landing page usando React e Tailwind CSS.", 1000.0, 1),
    LineItem("3", "Otimização SEO",
      "Configuração básica de SEO, meta tags e geração de sitemap.", 500.0, 2),
    LineItem("4", "Assets Redes Sociais",
      "Conjunto de 10 templates para Instagram e LinkedIn.", 1000.0, 3)
  ]

  /** The default document. Its two dates are computed from the clock when
      the page loads, so they are parameters here. */
  function InitialInvoice(date: string, dueDate: string): (d: Invoice)
    ensures d.date == date && d.dueDate == dueDate
    ensures |d.items| == 4 && Ids(d.items) == ["1", "2", "3", "4"]
    ensures IdsDistinct(d.items)
    ensures forall i :: 0 <= i < |d.items| ==> d.items[i].price > 0.0 && d.items[i].quantity >= 1
    ensures d.taxRate == 0.0 && d.discountRate == 0.0
  {
    Invoice(
      "PROP-001",
      date,
      dueDate,
      "QUANTAM ART",
      "+55 11 91234 5575",
      "ola@quantam.art",
      "Rua Criativa 123, Cidade Design",
      "www.quantam.art",
      "João Silva",
      "Gerente Financeiro",
      "joao.silva@email.com",
      "Av. Empresarial 456, Centro Tecnológico",
      DefaultItems,
      0.0,
      0.0,
      "banco@quantam.art",
      "pix@quantam.art")
  }
}
