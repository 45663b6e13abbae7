/** The analysis record as the record store hands it back: one row of the
    `analysis_results` table, decoded from JSON into a dictionary. */
module Records {

  datatype Option<+T> = None | Some(value: T)

  /** What `item.get(key, default)` can see for one key of a decoded row:
      the key is missing, it is present with JSON `null`, or it holds a value.
      Only a missing key yields the default; `null` is a falsy value. */
  datatype Field<+T> = Absent | Null | Present(value: T)

  /** `sources_checked` is stored either as one comma-separated string or as
      a JSON list of source names. */
  datatype Sources = Text(text: string) | Names(names: seq<string>)

  datatype Record = Record(
    url: string,
    isPhishing: Field<bool>,
    riskScore: Option<int>,           // None: the key is missing
    confidenceLevel: Field<string>,
    analysisDate: Field<string>,      // ISO-8601 text as rendered by the store
    sourcesChecked: Field<Sources>)
}
