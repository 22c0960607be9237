/** The record every stage of the pipeline passes along (record.go). */
module Records {

  /**
    One DNS record with its provenance and enrichment. The Go struct in record.go declares
    the first six fields; cert.go also writes CertIssuer, CertExpires and CertError, so the
    model carries those three as well. `recordType` is Go's `Type`.
   */
  datatype Record = Record(
    domain: string,
    name: string,
    value: string,
    recordType: string,
    source: string,
    registrar: string,
    certIssuer: string,
    certExpires: string,
    certError: string)

  /** A record as a provider client builds it: every field it does not set keeps Go's zero value "". */
  function NewRecord(domain: string, name: string, value: string, recordType: string, source: string): (r: Record)
    ensures r.registrar == r.certIssuer == r.certExpires == r.certError == ""
  {
    Record(domain, name, value, recordType, source, "", "", "", "")
  }
}
