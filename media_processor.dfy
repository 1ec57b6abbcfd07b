/** The records the post-processor passes around: a customer's order, the order once
    its outputs are planned, and the per-order video configuration a customer sends. */
module MediaProcessor {

  /** A customer's per-category choices: which named outputs to produce and which tag
      substrings keep an audio or subtitle stream (`allowedaudio.contains`,
      `allowedsubs.contains`). */
  datatype VideoMediaConfiguration = VideoMediaConfiguration(
    resolutions: seq<string>,
    allowedSubs: seq<string>,
    allowedAudio: seq<string>)

  /** `CustomerOrder`: the media category ("movies", "tv", ...), the customer node, the
      uploaded file and its display name, and the customer's configuration. */
  datatype CustomerOrder = CustomerOrder(
    mediaType: string,
    customer: string,
    pathToMedia: string,
    name: string,
    config: VideoMediaConfiguration)

  /** `CustomerOrderProcessing`: an order with its job id, output directory and the
      paths of the files the transcode produces. */
  datatype CustomerOrderProcessing = CustomerOrderProcessing(
    order: CustomerOrder,
    directory: string,
    result: seq<string>,
    id: string)
}
