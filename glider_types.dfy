/** The error, resource and result enumerations shared by loading and the view. */
module GliderTypes {
  import opened Layers

  /** The platform error a failed URL request reports; only carried along, never inspected. */
  datatype TransportError = TransportError(description: string)

  /** Why a load failed. Only `DataRequestError` and `InvalidStatusCode` carry a payload. */
  datatype GliderError =
    | LocalResourceNotFound
    | DataRequestError(cause: TransportError)
    | InvalidStatusCode(statusCode: int)
    | EmptyOrInvalidData
    | BadFormat

  type Bytes = seq<bv8>

  type Url = string

  /** Where a resource's archived layer tree comes from. */
  datatype GliderResourceType =
    | InBundle(name: string)
    | InDataAsset(assetName: string)
    | Remote(url: Url)
    | Ready(data: Bytes)

  /** What one load completion receives: a decoded root layer or an error, never both. */
  datatype GliderLoadResult = Success(layer: Layer) | Error(error: GliderError)
}
