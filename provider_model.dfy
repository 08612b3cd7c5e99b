/** The provider's own records (log/models.go), whose strings are the
    plugin framework's `types.String`: a value together with Null and
    Unknown flags. */
module ProviderModel {

  /** `types.String`: the value is meaningful only when neither flag is set. */
  datatype TfString = TfString(value: string, isNull: bool, isUnknown: bool)

  /** A string literal `types.String{Value: v}`: both flags false. */
  function Known(v: string): TfString
  {
    TfString(v, false, false)
  }

  datatype Log = Log(body: TfString)

  datatype OrderItem = OrderItem(log: Log)

  datatype Order = Order(id: TfString, items: seq<OrderItem>, lastUpdated: TfString)
}
