/**
 * The Crypto Pay invoice types (internal/cryptopay/models.go). The client that
 * sends them is not part of this model: its answers are inputs.
 */
module CryptoPay {
  import opened Wrappers

  datatype InvoiceRequest = InvoiceRequest(
    currencyType: string,
    fiat: string,
    amount: string,
    acceptedAssets: string,
    payload: string,
    description: string,
    paidBtnName: string,
    paidBtnUrl: string)

  datatype Invoice = Invoice(invoiceId: Option<int>, status: string, payload: string, botInvoiceUrl: string)

  predicate IsPaid(invoice: Invoice)
  {
    invoice.status == "paid"
  }
}
