/** Decoding of the disassembled (ASM) script of a Qtum contract call or
    contract creation into the fields of the invocation.

    The script arrives as a token list, the result of splitting the ASM text
    at single spaces. The grammar is positional:
      [version, senderAddress, senderSignatureScript, OP_SENDER]   (optional sender prefix)
      [vmVersion, gasLimit, gasPrice, callData]
      [contractAddress]                                             (calls only)
      OP_CALL | OP_CREATE                                           (final marker) */
module BtcAsm {
  import opened Wrappers
  import opened HexBytes

  const OpSender: string := "OP_SENDER"
  const OpCall: string := "OP_CALL"
  const OpCreate: string := "OP_CREATE"

  /** The decoded invocation. Every field is a hex string without "0x";
      `from` is empty when the script has no sender prefix, `to` is empty
      for a contract creation. */
  datatype ContractInvokeInfo = ContractInvokeInfo(
    from: string,
    gasLimit: string,
    gasPrice: string,
    callData: string,
    to: string)

  // ---------------------------------------------------------------------
  // Gas limit

  /** A big-endian hex quantity in the gateway's convention: no leading zero,
      and zero written as "0". */
  predicate IsQuantity(g: string) {
    g == "0" || (|g| > 0 && g[0] != '0')
  }

  /** The script stores the gas limit as a little-endian byte string; the
      decoder emits it most significant byte first, without leading zeros.
      A token that is not a whole number of bytes is malformed. */
  function GasLimitFromToken(tok: string): (r: Result<string>)
    ensures r.Success? <==> |tok| % 2 == 0
    ensures r.Success? ==> IsQuantity(r.value)
  {
    if |tok| % 2 != 0 then Failure(MalformedScript)
    else
      var t := TrimLeadingZeros(ReversePairs(tok));
      Success(if t == [] then "0" else t)
  }

  /** The token the script would hold for a gas limit `g`: padded to whole
      bytes and written least significant byte first. */
  function GasLimitToken(g: string): (tok: string)
    ensures |tok| % 2 == 0
    ensures |tok| == |g| || |tok| == |g| + 1
  {
    ReversePairs(if |g| % 2 == 0 then g else "0" + g)
  }

  /** Decoding the encoded gas limit gives the gas limit back. */
  lemma GasLimitRoundTrip(g: string)
    requires IsQuantity(g)
    ensures GasLimitFromToken(GasLimitToken(g)) == Success(g)
  {
    var padded := if |g| % 2 == 0 then g else "0" + g;
    ReversePairsInvolution(padded);
    if g == "0" {
      assert padded == "00";
      assert TrimLeadingZeros(padded) == TrimLeadingZeros(padded[1..]);
      assert TrimLeadingZeros(padded[1..]) == TrimLeadingZeros(padded[2..]);
      assert padded[2..] == [];
    } else if |g| % 2 == 1 {
      assert padded[1..] == g;
      assert TrimLeadingZeros(padded) == TrimLeadingZeros(g);
    }
  }

  /** The emitted gas limit denotes the same number as the little-endian token. */
  lemma GasLimitValue(tok: string)
    requires IsHex(tok) && |tok| % 2 == 0
    ensures GasLimitFromToken(tok).Success?
    ensures IsHex(GasLimitFromToken(tok).value)
    ensures Value(GasLimitFromToken(tok).value) == LittleEndianValue(tok)
  {
    ValueReversePairs(tok);
    ValueTrimLeadingZeros(ReversePairs(tok));
    var t := TrimLeadingZeros(ReversePairs(tok));
    if t == [] {
      assert Value("0") == 16 * Value("0"[..0]) + DigitValue('0');
    }
  }

  // ---------------------------------------------------------------------
  // The three pieces of the grammar

  /** Reads `[version, senderAddress, signatureScript, OP_SENDER]` off the front
      of the stream, giving the sender address and the remaining tokens. */
  function SenderPrefix(tokens: seq<string>): (r: Result<(string, seq<string>)>)
    ensures r.Success? <==> |tokens| >= 4 && tokens[3] == OpSender
    ensures r.Success? ==> r.value == (tokens[1], tokens[4..])
  {
    if |tokens| < 4 || tokens[3] != OpSender then Failure(MalformedScript)
    else Success((tokens[1], tokens[4..]))
  }

  /** `[vmVersion, gasLimit, gasPrice, callData, contractAddress, OP_CALL]`. */
  function CallBody(from: string, body: seq<string>): (r: Result<ContractInvokeInfo>)
    ensures r.Success? <==> |body| == 6 && body[5] == OpCall && |body[1]| % 2 == 0
    ensures r.Success? ==>
      r.value == ContractInvokeInfo(from, GasLimitFromToken(body[1]).value, body[2], body[3], body[4])
  {
    if |body| != 6 || body[5] != OpCall then Failure(MalformedScript)
    else
      var gasLimit :- GasLimitFromToken(body[1]);
      Success(ContractInvokeInfo(from, gasLimit, body[2], body[3], body[4]))
  }

  /** `[vmVersion, gasLimit, gasPrice, byteCode, OP_CREATE]`. */
  function CreateBody(from: string, body: seq<string>): (r: Result<ContractInvokeInfo>)
    ensures r.Success? <==> |body| == 5 && body[4] == OpCreate && |body[1]| % 2 == 0
    ensures r.Success? ==>
      r.value == ContractInvokeInfo(from, GasLimitFromToken(body[1]).value, body[2], body[3], "")
  {
    if |body| != 5 || body[4] != OpCreate then Failure(MalformedScript)
    else
      var gasLimit :- GasLimitFromToken(body[1]);
      Success(ContractInvokeInfo(from, gasLimit, body[2], body[3], ""))
  }

  // ---------------------------------------------------------------------
  // The four entry points

  /** A call with sender metadata: ten tokens, OP_SENDER at 3, OP_CALL at 9. */
  function ParseCallSenderASM(tokens: seq<string>): (r: Result<ContractInvokeInfo>)
    ensures r.Success? <==>
      |tokens| == 10 && tokens[3] == OpSender && tokens[9] == OpCall && |tokens[5]| % 2 == 0
    ensures r.Success? ==>
      r.value == ContractInvokeInfo(tokens[1], GasLimitFromToken(tokens[5]).value,
                                    tokens[6], tokens[7], tokens[8])
  {
    var (from, body) :- SenderPrefix(tokens);
    CallBody(from, body)
  }

  /** A creation with sender metadata: nine tokens, OP_SENDER at 3, OP_CREATE at 8. */
  function ParseCreateSenderASM(tokens: seq<string>): (r: Result<ContractInvokeInfo>)
    ensures r.Success? <==>
      |tokens| == 9 && tokens[3] == OpSender && tokens[8] == OpCreate && |tokens[5]| % 2 == 0
    ensures r.Success? ==>
      r.value == ContractInvokeInfo(tokens[1], GasLimitFromToken(tokens[5]).value,
                                    tokens[6], tokens[7], "")
  {
    var (from, body) :- SenderPrefix(tokens);
    CreateBody(from, body)
  }

  /** A creation without sender metadata: five tokens, OP_CREATE at 4. */
  function ParseCreateASM(tokens: seq<string>): (r: Result<ContractInvokeInfo>)
    ensures r.Success? <==> |tokens| == 5 && tokens[4] == OpCreate && |tokens[1]| % 2 == 0
    ensures r.Success? ==>
      r.value == ContractInvokeInfo("", GasLimitFromToken(tokens[1]).value,
                                    tokens[2], tokens[3], "")
  {
    CreateBody("", tokens)
  }

  /** A call without sender metadata: six tokens, OP_CALL at 5. */
  function ParseCallASM(tokens: seq<string>): (r: Result<ContractInvokeInfo>)
    ensures r.Success? <==> |tokens| == 6 && tokens[5] == OpCall && |tokens[1]| % 2 == 0
    ensures r.Success? ==>
      r.value == ContractInvokeInfo("", GasLimitFromToken(tokens[1]).value,
                                    tokens[2], tokens[3], tokens[4])
  {
    CallBody("", tokens)
  }

  // ---------------------------------------------------------------------
  // Assembling scripts, and the round trips

  datatype Sender = Sender(version: string, address: string, signatureScript: string)

  function SenderTokens(s: Sender): seq<string> {
    [s.version, s.address, s.signatureScript, OpSender]
  }

  function CallTokens(vmVersion: string, info: ContractInvokeInfo): seq<string> {
    [vmVersion, GasLimitToken(info.gasLimit), info.gasPrice, info.callData, info.to, OpCall]
  }

  function CreateTokens(vmVersion: string, info: ContractInvokeInfo): seq<string> {
    [vmVersion, GasLimitToken(info.gasLimit), info.gasPrice, info.callData, OpCreate]
  }

  lemma CallRoundTrip(vmVersion: string, info: ContractInvokeInfo)
    requires info.from == "" && IsQuantity(info.gasLimit)
    ensures ParseCallASM(CallTokens(vmVersion, info)) == Success(info)
  {
    var tokens := CallTokens(vmVersion, info);
    GasLimitRoundTrip(info.gasLimit);
    assert tokens[1] == GasLimitToken(info.gasLimit) && tokens[5] == OpCall;
    assert CallBody("", tokens) == Success(info);
  }

  lemma CreateRoundTrip(vmVersion: string, info: ContractInvokeInfo)
    requires info.from == "" && info.to == "" && IsQuantity(info.gasLimit)
    ensures ParseCreateASM(CreateTokens(vmVersion, info)) == Success(info)
  {
    var tokens := CreateTokens(vmVersion, info);
    GasLimitRoundTrip(info.gasLimit);
    assert tokens[1] == GasLimitToken(info.gasLimit) && tokens[4] == OpCreate;
    assert CreateBody("", tokens) == Success(info);
  }

  lemma CallSenderRoundTrip(sender: Sender, vmVersion: string, info: ContractInvokeInfo)
    requires info.from == sender.address && IsQuantity(info.gasLimit)
    ensures ParseCallSenderASM(SenderTokens(sender) + CallTokens(vmVersion, info)) == Success(info)
  {
    var body := CallTokens(vmVersion, info);
    var tokens := SenderTokens(sender) + body;
    GasLimitRoundTrip(info.gasLimit);
    assert tokens[1] == sender.address && tokens[3] == OpSender && tokens[4..] == body;
    assert SenderPrefix(tokens) == Success((sender.address, body));
    assert body[1] == GasLimitToken(info.gasLimit) && body[5] == OpCall;
    assert CallBody(sender.address, body) == Success(info);
  }

  lemma CreateSenderRoundTrip(sender: Sender, vmVersion: string, info: ContractInvokeInfo)
    requires info.from == sender.address && info.to == "" && IsQuantity(info.gasLimit)
    ensures ParseCreateSenderASM(SenderTokens(sender) + CreateTokens(vmVersion, info)) == Success(info)
  {
    var body := CreateTokens(vmVersion, info);
    var tokens := SenderTokens(sender) + body;
    GasLimitRoundTrip(info.gasLimit);
    assert tokens[1] == sender.address && tokens[3] == OpSender && tokens[4..] == body;
    assert SenderPrefix(tokens) == Success((sender.address, body));
    assert body[1] == GasLimitToken(info.gasLimit) && body[4] == OpCreate;
    assert CreateBody(sender.address, body) == Success(info);
  }

  /** A sender prefix changes nothing but `from`: decoding it together with a
      body gives what decoding the body alone gives, with the sender filled in. */
  lemma SenderPrefixOnlySetsFrom(sender: Sender, body: seq<string>)
    ensures ParseCallSenderASM(SenderTokens(sender) + body) ==
      (match ParseCallASM(body)
       case Success(info) => Success(info.(from := sender.address))
       case Failure(e) => Failure(e))
    ensures ParseCreateSenderASM(SenderTokens(sender) + body) ==
      (match ParseCreateASM(body)
       case Success(info) => Success(info.(from := sender.address))
       case Failure(e) => Failure(e))
  {
    assert (SenderTokens(sender) + body)[4..] == body;
  }

  /** The version tokens and the sender's signature script do not reach the result. */
  lemma VersionsAndSignatureIgnored(a: seq<string>, b: seq<string>)
    requires |a| == |b|
    requires forall i :: 0 <= i < |a| && i != 0 && i != 2 && i != 4 ==> a[i] == b[i]
    ensures ParseCallSenderASM(a) == ParseCallSenderASM(b)
    ensures ParseCreateSenderASM(a) == ParseCreateSenderASM(b)
  {
  }

  lemma VmVersionIgnored(a: seq<string>, b: seq<string>)
    requires |a| == |b|
    requires forall i :: 0 < i < |a| ==> a[i] == b[i]
    ensures ParseCallASM(a) == ParseCallASM(b)
    ensures ParseCreateASM(a) == ParseCreateASM(b)
  {
  }

  // ---------------------------------------------------------------------
  // The recorded vectors

  lemma GasLimitVector1()
    ensures GasLimitFromToken("90d003") == Success("3d090")
  {
    var s := "90d003";
    assert s[2..] == "d003" && s[..2] == "90";
    assert "d003"[2..] == "03" && "d003"[..2] == "d0";
    assert "03"[2..] == [] && "03"[..2] == "03";
    assert ReversePairs(s) == "03d090";
    assert "03d090"[1..] == "3d090";
    assert TrimLeadingZeros("03d090") == "3d090";
  }

  lemma GasLimitVector2()
    ensures GasLimitFromToken("b79166") == Success("6691b7")
  {
    var s := "b79166";
    assert s[2..] == "9166" && s[..2] == "b7";
    assert "9166"[2..] == "66" && "9166"[..2] == "91";
    assert "66"[2..] == [] && "66"[..2] == "66";
    assert ReversePairs(s) == "6691b7";
    assert TrimLeadingZeros("6691b7") == "6691b7";
  }

  lemma GasLimitVector3()
    ensures GasLimitFromToken("a02526") == Success("2625a0")
  {
    var s := "a02526";
    assert s[2..] == "2526" && s[..2] == "a0";
    assert "2526"[2..] == "26" && "2526"[..2] == "25";
    assert "26"[2..] == [] && "26"[..2] == "26";
    assert ReversePairs(s) == "2625a0";
    assert TrimLeadingZeros("2625a0") == "2625a0";
  }

  /** A call with sender metadata, as recorded from the chain. The tokens that
      are copied verbatim (or dropped) are parameters; the recorded ones are
      sender 93594441cb5de8b497ad8467d55412c2a0ef3659, call data 3d666e8b and
      contract 0000000000000000000000000000000000000086. */
  lemma CallSenderVector(sender: string, signatureScript: string, callData: string, contract: string)
    ensures ParseCallSenderASM([
      "01", sender, signatureScript, "OP_SENDER", "04", "90d003", "28", callData, contract,
      "OP_CALL"]) == Success(ContractInvokeInfo(sender, "3d090", "28", callData, contract))
  {
    var tokens := ["01", sender, signatureScript, "OP_SENDER", "04", "90d003", "28", callData, contract, "OP_CALL"];
    var body := ["04", "90d003", "28", callData, contract, "OP_CALL"];
    assert tokens[3] == OpSender && tokens[4..] == body;
    assert SenderPrefix(tokens) == Success((sender, body));
    GasLimitVector1();
    assert CallBody(sender, body) == Success(ContractInvokeInfo(sender, "3d090", "28", callData, contract));
  }

  /** A creation with sender metadata; the signature script and the bytecode
      are arbitrary tokens, so the vector holds for every bytecode length. */
  lemma CreateSenderVector(signatureScript: string, byteCode: string)
    ensures ParseCreateSenderASM([
      "1", "7926223070547d2d15b2ef5e7383e541c338ffe9", signatureScript,
      "OP_SENDER", "4", "b79166", "64", byteCode, "OP_CREATE"]) == Success(ContractInvokeInfo(
        "7926223070547d2d15b2ef5e7383e541c338ffe9", "6691b7", "64", byteCode, ""))
  {
    GasLimitVector2();
  }

  /** A creation without sender metadata, for every bytecode. */
  lemma CreateVector(byteCode: string)
    ensures ParseCreateASM(["04", "a02526", "28", byteCode, "OP_CREATE"]) ==
      Success(ContractInvokeInfo("", "2625a0", "28", byteCode, ""))
  {
    GasLimitVector3();
  }

  /** A call without sender metadata, as recorded from the chain, for every
      call data and contract address token (the recorded contract is
      54fefdb5b31164f66ddb68becd7bdd864cacd65b). */
  lemma CallVector(callData: string, contract: string)
    ensures ParseCallASM(["4", "90d003", "28", callData, contract, "OP_CALL"]) ==
      Success(ContractInvokeInfo("", "3d090", "28", callData, contract))
  {
    GasLimitVector1();
  }
}
