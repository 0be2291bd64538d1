/**
 * `getS3Endpoint`, which index.js and setup.js each define identically: the S3 host
 * name for a bucket region; and the error value S3 calls reject with.
 */
module S3Endpoint {
  import opened Wrappers

  /** An error an S3 call rejects with; only its `name` is ever inspected. */
  datatype S3Error = S3Error(name: string)

  const DefaultEndpoint := "s3.amazonaws.com"
  const EndpointPrefix := "s3-"
  const EndpointSuffix := ".amazonaws.com"

  /** `!region || region === 'us-east-1' || region === ''`; `None` is `undefined` or `null`. */
  predicate IsDefaultRegion(region: Option<string>) {
    region.None? || region.value == "" || region.value == "us-east-1"
  }

  /** The endpoint host for a region. */
  function GetS3Endpoint(region: Option<string>): (host: string)
    ensures host == DefaultEndpoint <==> IsDefaultRegion(region)
  {
    if IsDefaultRegion(region) then DefaultEndpoint
    else EndpointPrefix + region.value + EndpointSuffix
  }

  /** Reads the region back out of an endpoint host; `None` for the default endpoint. */
  function RegionOfEndpoint(host: string): Option<string> {
    var n, p, s := |host|, |EndpointPrefix|, |EndpointSuffix|;
    if host == DefaultEndpoint || n < p + s then None
    else if host[..p] == EndpointPrefix && host[n - s..] == EndpointSuffix then Some(host[p..n - s])
    else None
  }

  /** The endpoint names the region it was built from, unless the region is a default one. */
  lemma EndpointNamesRegion(region: Option<string>)
    ensures RegionOfEndpoint(GetS3Endpoint(region)) == if IsDefaultRegion(region) then None else region
  {
    if !IsDefaultRegion(region) {
      var host := GetS3Endpoint(region);
      var n := |host|;
      assert host[..3] == EndpointPrefix;
      assert host[n - 14..] == EndpointSuffix;
      assert host[3..n - 14] == region.value;
    }
  }

  /** Two non-default regions share an endpoint only if they are the same region. */
  lemma EndpointInjective(a: string, b: string)
    requires !IsDefaultRegion(Some(a)) && !IsDefaultRegion(Some(b))
    requires GetS3Endpoint(Some(a)) == GetS3Endpoint(Some(b))
    ensures a == b
  {
    EndpointNamesRegion(Some(a));
    EndpointNamesRegion(Some(b));
  }
}
