/**
 * The usertool.Constants enum: every constant carries one string, handed back
 * unchanged by getValue. The worker and master parse ports and the polling interval
 * out of it and dispatch on its action names and coordination paths.
 */
module Constants {
  import opened Util
  import Numerals

  datatype Constant =
    | ServerMode | WorkerMode | ClientMode
    | DefaultConfigPath
    | DefaultHostPort | FileReceivePort | FileObjectReceivePort
    | ClientCommunicationPort | MasterCommunicationPort
    | DefaultSessionTimeout | PutTimeOut | SleepInterval | GetMasterRetry
    | ShutDown
    | AddFile | RemoveFile | RequestFile
    | MasterPath | WorkerPath | TaskPath | AssignPath | StatusPath

  /**
   * getValue: the string the constant was constructed with. None is empty, and the
   * coordination paths are exactly the values that start with '/'.
   */
  function GetValue(c: Constant): (v: string)
    ensures |v| > 0
    ensures v[0] == '/' <==> IsPath(c)
  {
    match c
    case ServerMode => "s"
    case WorkerMode => "w"
    case ClientMode => "c"
    case DefaultConfigPath => "config/configuration.cfg"
    case DefaultHostPort => "2181"
    case FileReceivePort => "10000"
    case FileObjectReceivePort => "20000"
    case ClientCommunicationPort => "21000"
    case MasterCommunicationPort => "22000"
    case DefaultSessionTimeout => "15000"
    case PutTimeOut => "1200000"
    case SleepInterval => "1000"
    case GetMasterRetry => "3"
    case ShutDown => "quit"
    case AddFile => "add_file"
    case RemoveFile => "remove_file"
    case RequestFile => "request_file"
    case MasterPath => "/master"
    case WorkerPath => "/workers"
    case TaskPath => "/task"
    case AssignPath => "/assign"
    case StatusPath => "/status"
  }

  predicate IsPort(c: Constant)
  {
    c == FileReceivePort || c == FileObjectReceivePort
    || c == ClientCommunicationPort || c == MasterCommunicationPort
  }

  predicate IsPath(c: Constant)
  {
    c == MasterPath || c == WorkerPath || c == TaskPath || c == AssignPath || c == StatusPath
  }

  /** No two constants share a value, so an equals-chain over them picks at most one branch. */
  lemma GetValueInjective(a: Constant, b: Constant)
    requires a != b
    ensures GetValue(a) != GetValue(b)
  {
  }

  /** The three client commands the master dispatches on are pairwise distinct. */
  lemma FileCommandsDistinct()
    ensures GetValue(AddFile) != GetValue(RemoveFile)
    ensures GetValue(AddFile) != GetValue(RequestFile)
    ensures GetValue(RemoveFile) != GetValue(RequestFile)
  {
    GetValueInjective(AddFile, RemoveFile);
    GetValueInjective(AddFile, RequestFile);
    GetValueInjective(RemoveFile, RequestFile);
  }

  /** The numeral d1 d2 0 0 0 parses to d1 * 10000 + d2 * 1000. */
  lemma ParseThousands(d1: char, d2: char)
    requires Numerals.IsDigit(d1) && Numerals.IsDigit(d2)
    ensures Numerals.ParseInt([d1, d2, '0', '0', '0'])
         == Some(Numerals.DigitValue(d1) * 10000 + Numerals.DigitValue(d2) * 1000)
  {
    Numerals.DigitsValueSnoc([d1], d2);
    assert [d1] + [d2] == [d1, d2];
    Numerals.DigitsValueSnoc([d1, d2], '0');
    assert [d1, d2] + ['0'] == [d1, d2, '0'];
    Numerals.DigitsValueSnoc([d1, d2, '0'], '0');
    assert [d1, d2, '0'] + ['0'] == [d1, d2, '0', '0'];
    Numerals.DigitsValueSnoc([d1, d2, '0', '0'], '0');
    assert [d1, d2, '0', '0'] + ['0'] == [d1, d2, '0', '0', '0'];
    Numerals.ParseUnsigned([d1, d2, '0', '0', '0'], Numerals.IntMin, Numerals.IntMax);
  }

  /** Every port constant is a numeral Integer.parseInt accepts, with the value below. */
  lemma PortsParse()
    ensures Numerals.ParseInt(GetValue(FileReceivePort)) == Some(10000)
    ensures Numerals.ParseInt(GetValue(FileObjectReceivePort)) == Some(20000)
    ensures Numerals.ParseInt(GetValue(ClientCommunicationPort)) == Some(21000)
    ensures Numerals.ParseInt(GetValue(MasterCommunicationPort)) == Some(22000)
  {
    ParseThousands('1', '0');
    ParseThousands('2', '0');
    ParseThousands('2', '1');
    ParseThousands('2', '2');
  }

  /** The polling interval both loops read with Long.parseLong is 1000 (milliseconds). */
  lemma SleepIntervalParses()
    ensures Numerals.ParseLong(GetValue(SleepInterval)) == Some(1000)
  {
    var d := ['1', '0', '0', '0'];
    Numerals.DigitsValueSnoc(['1'], '0');
    assert ['1'] + ['0'] == ['1', '0'];
    Numerals.DigitsValueSnoc(['1', '0'], '0');
    assert ['1', '0'] + ['0'] == ['1', '0', '0'];
    Numerals.DigitsValueSnoc(['1', '0', '0'], '0');
    assert ['1', '0', '0'] + ['0'] == d;
    Numerals.ParseUnsigned(d, Numerals.LongMin, Numerals.LongMax);
  }

  /** Every coordination path is absolute and names a node directly under the root. */
  lemma PathsAreTopLevel(c: Constant)
    requires IsPath(c)
    ensures |GetValue(c)| > 1 && GetValue(c)[0] == '/' && '/' !in GetValue(c)[1..]
  {
  }
}
