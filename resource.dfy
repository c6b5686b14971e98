/** A cloud resource as the filters see it: its fetched record and the annotations they add to it in place. */
module Resources {
  import opened Outcomes
  import opened Json

  class Resource {
    /** The resource record as fetched; neither filter changes it. */
    const data: Json
    /** The `c7n.metrics` entry: None while the resource has none. */
    var metrics: Option<map<string, Json>>
    /** The `c7n.findings` entry: None while the resource has none. */
    var findings: Option<seq<Json>>

    constructor (data: Json)
      ensures this.data == data && metrics == None && findings == None
    {
      this.data := data;
      metrics := None;
      findings := None;
    }
  }
}
