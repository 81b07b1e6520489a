/**
 * The records the API returns for projects, categories, payment methods
 * and expenses, reduced to the fields the client logic reads. Timestamps
 * are the milliseconds `new Date(text).getTime()` yields; day fields stay
 * "YYYY-MM-DD" text.
 */
module Entities {
  import opened Common

  datatype Project = Project(
    id: string,
    name: string,
    currencyCode: string,
    description: Option<string>,
    createdAt: int,
    updatedAt: int)

  datatype PaymentMethodType = Bank | Cash | Card

  /** The wire spelling of a payment method type. */
  function KindName(k: PaymentMethodType): string
  {
    match k
    case Bank => "bank"
    case Cash => "cash"
    case Card => "card"
  }

  /** Different types have different spellings. */
  lemma KindNameInjective(a: PaymentMethodType, b: PaymentMethodType)
    requires KindName(a) == KindName(b)
    ensures a == b
  {
  }

  datatype PaymentMethod = PaymentMethod(
    id: string,
    name: string,
    kind: PaymentMethodType,
    currency: string,
    bankName: Option<string>,
    accountNumber: Option<string>,
    description: Option<string>,
    createdAt: int,
    updatedAt: int)

  datatype Category = Category(
    id: string,
    name: string,
    description: Option<string>,
    isDefault: bool,
    budgetAmount: Option<real>)

  datatype Expense = Expense(
    id: string,
    title: string,
    categoryId: string,
    paymentMethodId: string,
    obligationId: Option<string>,
    originalAmount: real,
    originalCurrency: string,
    exchangeRate: real,
    convertedAmount: real,
    description: Option<string>,
    expenseDate: string,
    notes: Option<string>,
    altCurrency: Option<string>,
    altExchangeRate: Option<real>,
    altAmount: Option<real>)
}
