/** Values shared by the table model and the auction record: the optional
    values Java expresses with null, the opaque Currency, dates and sellers. */
module Domain {

  /** A Java reference that may be null. */
  datatype Option<+T> = None | Some(value: T)

  /** The currency type of an amount; NONE marks an amount that was never set. */
  datatype CurrencyKind = NoCurrency | USDollar | OtherCurrency(code: string)

  /** A monetary amount as the table and the record see it: its currency type,
      the text its toString gives and the name fullCurrencyName gives.
      Arithmetic and conversion are not modelled. */
  datatype Currency = Currency(kind: CurrencyKind, text: string, fullName: string) {
    /** Currency.isNull: the amount has no currency type. */
    predicate IsNull() { kind == NoCurrency }
  }

  /** Currency.NoValue(), the null amount. */
  const NO_VALUE := Currency(NoCurrency, "", "")

  /** A java.util.Date, by its milliseconds since the epoch. */
  datatype Date = Date(millis: int)

  /** Constants.FAR_FUTURE, the date that stands for "no end date". */
  const FAR_FUTURE := Date(0x7FFF_FFFF_FFFF_FFFF)

  /** The fields of a Seller record that the table and the record read. */
  datatype Seller = Seller(name: string, id: Option<int>, feedback: int, positivePercentage: Option<string>)

  /** What `new Seller()` holds before any setter runs. */
  const BLANK_SELLER := Seller("", None, 0, None)
}
