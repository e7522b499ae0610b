/**
 * The XML and the JSON response report the same thing: read back, both documents written for a
 * patch status give the same report, and distinct reports give distinct documents in each format.
 */
module PatchStatusAgreement {
  import opened Wrappers
  import opened PatchStatus
  import Xml = XmlPatchStatusBodyWriter
  import Json = JsonPatchStatusBodyWriter

  lemma FormatsAgree(b: PatchStatusContext)
    ensures Xml.ParseDocument(Xml.Document(b)) == Json.ParseDocument(Json.Document(b)) == Some(ViewOf(b))
  {
    Xml.DocumentRoundTrip(b);
    Json.DocumentRoundTrip(b);
  }

  /** Patch statuses that stand for different reports are written as different documents. */
  lemma DocumentsDistinguishReports(b1: PatchStatusContext, b2: PatchStatusContext)
    requires ViewOf(b1) != ViewOf(b2)
    ensures Xml.Document(b1) != Xml.Document(b2)
    ensures Json.Document(b1) != Json.Document(b2)
  {
    FormatsAgree(b1);
    FormatsAgree(b2);
  }
}
