/** The pager message value the message factories produce
    (`org.dapnet.core.transmission.messages.PagerMessage`). Only the
    constants the factories use are listed in the enumerations. */
module CoreMessages {
  import opened Common

  datatype Priority = EMERGENCY | CALL | TIME

  datatype SubAddress = ADDR_A | ADDR_B | ADDR_C | ADDR_D

  datatype ContentType = NUMERIC | ALPHANUMERIC

  /** One page: capture timestamp (when the factory supplies one), priority,
      pager address, sub-address, content type and text. */
  datatype PagerMessage = PagerMessage(
    timestamp: Option<int>,
    priority: Priority,
    address: int,
    subAddress: SubAddress,
    contentType: ContentType,
    text: string)
}
