/** The parts of AWS SDK types that the modelled code reads or passes on. */
module AwsTypes {

  /** Amazon.RegionEndpoint: only its identifying names are modelled. */
  datatype RegionEndpoint = RegionEndpoint(systemName: string, displayName: string)

  /** Amazon.Runtime.AWSCredentials: opaque key material, never inspected by the modelled code. */
  datatype Credentials = Credentials(identity: string)
}
