/** Option and Result, the failure-compatible datatypes the model uses in place of
    Rust's `Option` and `Result`, and the crate's error enum from src/errors.rs. */
module Wrappers {

  datatype Option<+T> = None | Some(value: T) {
    predicate IsFailure() { None? }

    function PropagateFailure<U>(): Option<U>
      requires None?
    {
      None
    }

    function Extract(): T
      requires Some?
    {
      value
    }

    /** `unwrap_or`: the held value, or `default` for None. */
    function GetOr(default: T): T {
      match this
      case Some(v) => v
      case None => default
    }
  }

  datatype Result<+T, +E> = Ok(value: T) | Err(error: E) {
    predicate IsFailure() { Err? }

    function PropagateFailure<U>(): Result<U, E>
      requires Err?
    {
      Err(error)
    }

    function Extract(): T
      requires Ok?
    {
      value
    }
  }

  /** `ok_or_else`: None becomes the given error. */
  function OkOr<T, E>(o: Option<T>, e: E): (r: Result<T, E>)
    ensures r.Ok? <==> o.Some?
    ensures r.Ok? ==> r.value == o.value
    ensures r.Err? ==> r.error == e
  {
    match o
    case Some(v) => Ok(v)
    case None => Err(e)
  }
}

/** The crate's error type, `AgentError` of src/errors.rs. Variants that wrap a
    foreign error (I/O, reqwest, serde_json, rig) carry that error's text. */
module Errors {
  import opened Wrappers

  datatype AgentError =
    | MissingConfig(what: string)
    | Unsupported(feature: string)
    | Io(message: string)
    | Reqwest(message: string)
    | SerdeJson(message: string)
    | Prompt(message: string)
    | Completion(message: string)
    | AudioGeneration(message: string)
    | ImageGeneration(message: string)
    | Other(message: string)

  /** `crate::errors::Result<T>`. */
  type AgentResult<T> = Result<T, AgentError>

  /** The unit value `()` of a `Result<()>`. */
  datatype Unit = Unit

  /** The `Display` text of an error: a fixed Chinese heading per kind, then
      the detail. */
  function ErrorText(e: AgentError): (text: string)
    ensures |text| > |ErrorDetail(e)|
    ensures text[|text| - |ErrorDetail(e)|..] == ErrorDetail(e)
  {
    ErrorHeading(e) + ErrorDetail(e)
  }

  /** The detail an error carries. */
  function ErrorDetail(e: AgentError): string {
    match e
    case MissingConfig(what) => what
    case Unsupported(feature) => feature
    case Io(m) => m
    case Reqwest(m) => m
    case SerdeJson(m) => m
    case Prompt(m) => m
    case Completion(m) => m
    case AudioGeneration(m) => m
    case ImageGeneration(m) => m
    case Other(m) => m
  }

  /** The heading of each kind of error. */
  function ErrorHeading(e: AgentError): (h: string)
    ensures h != []
  {
    match e
    case MissingConfig(_) => "缺少必要的配置: "
    case Unsupported(_) => "当前能力暂不可用: "
    case Io(_) => "I/O 错误: "
    case Reqwest(_) => "网络请求失败: "
    case SerdeJson(_) => "JSON 解析失败: "
    case Prompt(_) => "LLM 请求失败: "
    case Completion(_) => "文本生成失败: "
    case AudioGeneration(_) => "音频生成失败: "
    case ImageGeneration(_) => "图像生成失败: "
    case Other(_) => "内部错误: "
  }

  /** Errors of different kinds never read the same: the headings differ and
      none is a prefix of another. */
  lemma HeadingsDistinguishKinds(e1: AgentError, e2: AgentError)
    requires ErrorText(e1) == ErrorText(e2)
    ensures ErrorHeading(e1) == ErrorHeading(e2) && ErrorDetail(e1) == ErrorDetail(e2)
  {
    var h1, h2 := ErrorHeading(e1), ErrorHeading(e2);
    var t := ErrorText(e1);
    assert h1[0] == t[0] == h2[0];
    assert h1 == h2;
    assert ErrorDetail(e1) == t[|h1|..] == ErrorDetail(e2);
  }
}
