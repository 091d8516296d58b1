// Transactions and blocks as the services exchange them.
module Types {
  import opened Wrappers
  import opened StateKeys

  datatype TransactionHeader =
    TransactionHeader(version: int, sender: seq<Byte>, timestamp: int, contractAddress: seq<Byte>)

  datatype TransactionSignatureData = TransactionSignatureData(publicKey: seq<Byte>, signature: seq<Byte>)

  datatype Transaction =
    Transaction(header: TransactionHeader, payload: string, signatureData: TransactionSignatureData)

  datatype TransactionEntry = TransactionEntry(txHash: seq<Byte>, transaction: Transaction)

  datatype TransactionReceipt = TransactionReceipt(txHash: seq<Byte>, success: bool)

  datatype BlockHeader = BlockHeader(version: int, prevBlockHash: seq<Byte>, height: int)

  datatype BlockBody =
    BlockBody(transactions: seq<Transaction>, transactionReceipts: seq<TransactionReceipt>, stateDiff: seq<Modified>)

  datatype BlockSignatureData = BlockSignatureData(signature: seq<Byte>, signatory: string)

  datatype Block = Block(header: BlockHeader, body: BlockBody, signatureData: BlockSignatureData)
}
