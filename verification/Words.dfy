/** The words of the language as texts. */
module Words {
  import opened Lexers
  import opened Printers
  import opened Grammar

  function WordText(w: Word): string {
    match w
    case SettingsWord => "SETTINGS"
    case OrchestratorWord => "ORCHESTRATOR"
    case SessionWord => "SESSION"
    case PortWord => "PORT"
    case HeaderSizeWord => "HEADERSIZE"
    case BodyMaxWord => "BODYMAX"
    case ReadWord => "READ"
    case RepeatWord => "REPEAT"
    case SampleRateWord => "SAMPLERATE"
    case ShardsWord => "SHARDS"
    case HandlerWord => "HANDLER"
    case EndpointsWord => "ENDPOINTS"
    case PacketsWord => "PACKETS"
    case CreateWord => "CREATE"
    case ConnectWord => "CONNECT"
    case SendWord => "SEND"
    case FloodWord => "FLOOD"
    case DrainWord => "DRAIN"
    case DisconnectWord => "DISCONNECT"
    case OffsetWord => "OFFSET"
    case CopiesWord => "COPIES"
    case TimestampWord => "TIMESTAMP"
    case CounterWord => "COUNTER"
    case EqualsWord => "="
    case CommaWord => ","
    case ColonWord => ":"
    case TrueWord => "true"
    case FalseWord => "false"
    case LittleWord => "little"
    case BigWord => "big"
    case SecondsWord => "seconds"
    case MillisecondsWord => "milliseconds"
    case MicrosecondsWord => "microseconds"
    case NanosecondsWord => "nanoseconds"
    case OtherWord => "EOF"
  }

  predicate IsOperatorWord(w: Word) {
    w == EqualsWord || w == CommaWord || w == ColonWord
  }

  predicate IsValueWord(w: Word) {
    w == TrueWord || w == FalseWord || w == LittleWord || w == BigWord || IsFormat(w)
  }

  predicate IsKeywordWord(w: Word) {
    w != OtherWord && !IsOperatorWord(w) && !IsValueWord(w)
  }

  lemma ShortWords0()
    ensures WordOf("PORT") == PortWord
    ensures WordOf("READ") == ReadWord
    ensures WordOf("SEND") == SendWord
    ensures WordOf("=") == EqualsWord
  {
  }

  lemma ShortWords1()
    ensures WordOf(",") == CommaWord
    ensures WordOf(":") == ColonWord
    ensures WordOf("true") == TrueWord
    ensures WordOf("big") == BigWord
  {
  }

  lemma MiddleWords0()
    ensures WordOf("REPEAT") == RepeatWord
    ensures WordOf("SHARDS") == ShardsWord
    ensures WordOf("CREATE") == CreateWord
    ensures WordOf("FLOOD") == FloodWord
  {
  }

  lemma MiddleWords1()
    ensures WordOf("DRAIN") == DrainWord
    ensures WordOf("OFFSET") == OffsetWord
    ensures WordOf("COPIES") == CopiesWord
    ensures WordOf("false") == FalseWord
  {
  }

  lemma MiddleWords2()
    ensures WordOf("little") == LittleWord
  {
  }

  lemma SevenLetterWords0()
    ensures WordOf("SESSION") == SessionWord
    ensures WordOf("BODYMAX") == BodyMaxWord
    ensures WordOf("HANDLER") == HandlerWord
    ensures WordOf("PACKETS") == PacketsWord
  {
  }

  lemma SevenLetterWords1()
    ensures WordOf("CONNECT") == ConnectWord
    ensures WordOf("COUNTER") == CounterWord
    ensures WordOf("seconds") == SecondsWord
  {
  }

  lemma LongWords0()
    ensures WordOf("SETTINGS") == SettingsWord
    ensures WordOf("ORCHESTRATOR") == OrchestratorWord
    ensures WordOf("HEADERSIZE") == HeaderSizeWord
    ensures WordOf("SAMPLERATE") == SampleRateWord
  {
  }

  lemma LongWords1()
    ensures WordOf("ENDPOINTS") == EndpointsWord
    ensures WordOf("DISCONNECT") == DisconnectWord
    ensures WordOf("TIMESTAMP") == TimestampWord
    ensures WordOf("milliseconds") == MillisecondsWord
  {
  }

  lemma LongWords2()
    ensures WordOf("microseconds") == MicrosecondsWord
    ensures WordOf("nanoseconds") == NanosecondsWord
  {
  }

  lemma WordRoundTrip(w: Word)
    requires w != OtherWord
    ensures WordOf(WordText(w)) == w
  {
    match w
    case SettingsWord => LongWords0();
    case OrchestratorWord => LongWords0();
    case SessionWord => SevenLetterWords0();
    case PortWord => ShortWords0();
    case HeaderSizeWord => LongWords0();
    case BodyMaxWord => SevenLetterWords0();
    case ReadWord => ShortWords0();
    case RepeatWord => MiddleWords0();
    case SampleRateWord => LongWords0();
    case ShardsWord => MiddleWords0();
    case HandlerWord => SevenLetterWords0();
    case EndpointsWord => LongWords1();
    case PacketsWord => SevenLetterWords0();
    case CreateWord => MiddleWords0();
    case ConnectWord => SevenLetterWords1();
    case SendWord => ShortWords0();
    case FloodWord => MiddleWords0();
    case DrainWord => MiddleWords1();
    case DisconnectWord => LongWords1();
    case OffsetWord => MiddleWords1();
    case CopiesWord => MiddleWords1();
    case TimestampWord => LongWords1();
    case CounterWord => SevenLetterWords1();
    case EqualsWord => ShortWords0();
    case CommaWord => ShortWords1();
    case ColonWord => ShortWords1();
    case TrueWord => ShortWords1();
    case FalseWord => MiddleWords1();
    case LittleWord => MiddleWords2();
    case BigWord => ShortWords1();
    case SecondsWord => SevenLetterWords1();
    case MillisecondsWord => LongWords1();
    case MicrosecondsWord => LongWords2();
    case NanosecondsWord => LongWords2();
  }

  lemma Keywords0()
    ensures IsWord("SETTINGS") && "SETTINGS" in KEYWORDS
    ensures IsWord("ORCHESTRATOR") && "ORCHESTRATOR" in KEYWORDS
    ensures IsWord("SESSION") && "SESSION" in KEYWORDS
    ensures IsWord("PORT") && "PORT" in KEYWORDS
  {
  }

  lemma Keywords1()
    ensures IsWord("HEADERSIZE") && "HEADERSIZE" in KEYWORDS
    ensures IsWord("BODYMAX") && "BODYMAX" in KEYWORDS
    ensures IsWord("READ") && "READ" in KEYWORDS
    ensures IsWord("REPEAT") && "REPEAT" in KEYWORDS
  {
  }

  lemma Keywords2()
    ensures IsWord("SAMPLERATE") && "SAMPLERATE" in KEYWORDS
    ensures IsWord("SHARDS") && "SHARDS" in KEYWORDS
    ensures IsWord("HANDLER") && "HANDLER" in KEYWORDS
    ensures IsWord("ENDPOINTS") && "ENDPOINTS" in KEYWORDS
  {
  }

  lemma Keywords3()
    ensures IsWord("PACKETS") && "PACKETS" in KEYWORDS
    ensures IsWord("CREATE") && "CREATE" in KEYWORDS
    ensures IsWord("CONNECT") && "CONNECT" in KEYWORDS
    ensures IsWord("SEND") && "SEND" in KEYWORDS
  {
  }

  lemma Keywords4()
    ensures IsWord("FLOOD") && "FLOOD" in KEYWORDS
    ensures IsWord("DRAIN") && "DRAIN" in KEYWORDS
    ensures IsWord("DISCONNECT") && "DISCONNECT" in KEYWORDS
    ensures IsWord("OFFSET") && "OFFSET" in KEYWORDS
  {
  }

  lemma Keywords5()
    ensures IsWord("COPIES") && "COPIES" in KEYWORDS
    ensures IsWord("TIMESTAMP") && "TIMESTAMP" in KEYWORDS
    ensures IsWord("COUNTER") && "COUNTER" in KEYWORDS
  {
  }

  lemma KeywordSpelling(w: Word)
    requires IsKeywordWord(w)
    ensures IsWord(WordText(w)) && WordText(w) in KEYWORDS
  {
    match w
    case SettingsWord => Keywords0();
    case OrchestratorWord => Keywords0();
    case SessionWord => Keywords0();
    case PortWord => Keywords0();
    case HeaderSizeWord => Keywords1();
    case BodyMaxWord => Keywords1();
    case ReadWord => Keywords1();
    case RepeatWord => Keywords1();
    case SampleRateWord => Keywords2();
    case ShardsWord => Keywords2();
    case HandlerWord => Keywords2();
    case EndpointsWord => Keywords2();
    case PacketsWord => Keywords3();
    case CreateWord => Keywords3();
    case ConnectWord => Keywords3();
    case SendWord => Keywords3();
    case FloodWord => Keywords4();
    case DrainWord => Keywords4();
    case DisconnectWord => Keywords4();
    case OffsetWord => Keywords4();
    case CopiesWord => Keywords5();
    case TimestampWord => Keywords5();
    case CounterWord => Keywords5();
  }

  lemma OperatorSpelling(w: Word)
    requires IsOperatorWord(w)
    ensures |WordText(w)| == 1 && IsOperator(WordText(w)[0])
  {
    match w
    case EqualsWord =>
    case CommaWord =>
    case ColonWord =>
  }

  lemma ValueSpelling(w: Word)
    requires IsValueWord(w)
    ensures !EndsInBackslash(WordText(w))
  {
    match w
    case TrueWord =>
    case FalseWord =>
    case LittleWord =>
    case BigWord =>
    case SecondsWord =>
    case MillisecondsWord =>
    case MicrosecondsWord =>
    case NanosecondsWord =>
  }
}
