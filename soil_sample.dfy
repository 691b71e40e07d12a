/**
 * The soil record the agronomy services read: every field may be missing
 * (`null` or `undefined`, modelled as `None`).
 */
module SoilSample {
  import opened Wrappers

  datatype Sample = Sample(
    ph: Option<real>,
    nitrogen: Option<real>,
    phosphorus: Option<real>,
    potassium: Option<real>,
    organicMatter: Option<real>,
    fieldName: Option<string>)

  /** A record with every field missing. */
  const Empty := Sample(None, None, None, None, None, None)
}
