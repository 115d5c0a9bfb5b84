/** The Lightning channel record (`TChannel` of the LDK bindings) with the fields the wallet reads and writes. */
module LdkTypes {
  import opened Common

  datatype Channel = Channel(
    channelId: string,
    confirmations: int,
    isPublic: bool,
    isUsable: bool,
    isChannelReady: bool,
    isOutbound: bool,
    balanceSat: int,
    counterpartyNodeId: string,
    fundingTxid: Option<string>,
    userChannelId: string,
    inboundScidAlias: string,
    inboundPaymentScid: string,
    inboundCapacitySat: int,
    outboundCapacitySat: int,
    channelValueSatoshis: int,
    shortChannelId: string,
    configForwardingFeeBaseMsat: int,
    configForwardingFeeProportionalMillionths: int
  )
}
