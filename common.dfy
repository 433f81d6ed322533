/**
 * The enumerated string types of pkg/types/common.go (and the two small ones of
 * pkg/types/function.go).  In Go each is a named string type, so any string is a
 * value of the type; the declared constants are the valid ones.  Here each type is a
 * synonym of `string`, `IsValid` is membership among the declared constants, and
 * `String` is the conversion back to `string`, which is the identity.
 */
module Common {

  // ----- Role -----

  type Role = string

  const RoleUser: Role := "user"
  const RoleAssistant: Role := "assistant"
  const RoleSystem: Role := "system"
  const RoleTool: Role := "tool"
  const RoleFunction: Role := "function"

  const ValidRoles: set<Role> := {RoleUser, RoleAssistant, RoleSystem, RoleTool, RoleFunction}

  /** Role.String: the underlying string. */
  function RoleString(r: Role): (s: string)
    ensures s == r
  {
    r
  }

  /** Role.IsValid: exactly the five declared roles. */
  function RoleIsValid(r: Role): (ok: bool)
    ensures ok <==> r in ValidRoles
  {
    match r
    case "user" | "assistant" | "system" | "tool" | "function" => true
    case _ => false
  }

  // ----- ContentType -----

  type ContentType = string

  const ContentTypeText: ContentType := "text"
  const ContentTypeImage: ContentType := "image"
  const ContentTypeImageURL: ContentType := "image_url"
  const ContentTypeAudio: ContentType := "audio"
  const ContentTypeVideo: ContentType := "video"
  const ContentTypeFile: ContentType := "file"

  const ValidContentTypes: set<ContentType> :=
    {ContentTypeText, ContentTypeImage, ContentTypeImageURL, ContentTypeAudio, ContentTypeVideo, ContentTypeFile}

  /** ContentType.String: the underlying string. */
  function ContentTypeString(c: ContentType): (s: string)
    ensures s == c
  {
    c
  }

  /** ContentType.IsValid: exactly the six declared content types. */
  function ContentTypeIsValid(c: ContentType): (ok: bool)
    ensures ok <==> c in ValidContentTypes
  {
    match c
    case "text" | "image" | "image_url" | "audio" | "video" | "file" => true
    case _ => false
  }

  // ----- FinishReason -----

  type FinishReason = string

  const FinishReasonStop: FinishReason := "stop"
  const FinishReasonLength: FinishReason := "length"
  const FinishReasonToolCalls: FinishReason := "tool_calls"
  const FinishReasonFunctionCall: FinishReason := "function_call"
  const FinishReasonContentFilter: FinishReason := "content_filter"
  const FinishReasonError: FinishReason := "error"
  /** "No finish reason yet": a valid value that still means the stream is in progress. */
  const FinishReasonNull: FinishReason := "null"

  const ValidFinishReasons: set<FinishReason> :=
    {FinishReasonStop, FinishReasonLength, FinishReasonToolCalls, FinishReasonFunctionCall,
     FinishReasonContentFilter, FinishReasonError, FinishReasonNull}

  /** FinishReason.String: the underlying string. */
  function FinishReasonString(f: FinishReason): (s: string)
    ensures s == f
  {
    f
  }

  /** FinishReason.IsValid: the seven declared reasons, "null" included; "" is not one of them. */
  function FinishReasonIsValid(f: FinishReason): (ok: bool)
    ensures ok <==> f in ValidFinishReasons
    ensures f == "" ==> !ok
  {
    match f
    case "stop" | "length" | "tool_calls" | "function_call" | "content_filter" | "error" | "null" => true
    case _ => false
  }

  // ----- ModelCapability -----

  type ModelCapability = string

  const CapabilityChat: ModelCapability := "chat"
  const CapabilityCompletion: ModelCapability := "completion"
  const CapabilityEmbedding: ModelCapability := "embedding"
  const CapabilityStreaming: ModelCapability := "streaming"
  const CapabilityFunctionCalling: ModelCapability := "function_calling"
  const CapabilityToolCalling: ModelCapability := "tool_calling"
  const CapabilityVision: ModelCapability := "vision"
  const CapabilityAudio: ModelCapability := "audio"
  const CapabilityImageGeneration: ModelCapability := "image_generation"
  const CapabilityJSONMode: ModelCapability := "json_mode"

  /** ModelCapability.String: the underlying string. */
  function ModelCapabilityString(m: ModelCapability): (s: string)
    ensures s == m
  {
    m
  }

  // ----- Provider -----

  type Provider = string

  const ProviderOpenAI: Provider := "openai"
  const ProviderAnthropic: Provider := "anthropic"
  const ProviderGoogle: Provider := "google"
  const ProviderCohere: Provider := "cohere"
  const ProviderMistral: Provider := "mistral"
  const ProviderHuggingFace: Provider := "huggingface"
  const ProviderAzure: Provider := "azure"
  const ProviderCustom: Provider := "custom"

  const ValidProviders: set<Provider> :=
    {ProviderOpenAI, ProviderAnthropic, ProviderGoogle, ProviderCohere,
     ProviderMistral, ProviderHuggingFace, ProviderAzure, ProviderCustom}

  /** Provider.String: the underlying string. */
  function ProviderString(p: Provider): (s: string)
    ensures s == p
  {
    p
  }

  /** Provider.IsValid: exactly the eight declared providers. */
  function ProviderIsValid(p: Provider): (ok: bool)
    ensures ok <==> p in ValidProviders
  {
    match p
    case "openai" | "anthropic" | "google" | "cohere" | "mistral" | "huggingface" | "azure" | "custom" => true
    case _ => false
  }

  // ----- ImageDetail -----

  type ImageDetail = string

  const ImageDetailAuto: ImageDetail := "auto"
  const ImageDetailLow: ImageDetail := "low"
  const ImageDetailHigh: ImageDetail := "high"

  /** ImageDetail.String: the underlying string. */
  function ImageDetailString(i: ImageDetail): (s: string)
    ensures s == i
  {
    i
  }

  // ----- ToolType and ToolChoice (declared in pkg/types/function.go) -----

  type ToolType = string

  const ToolTypeFunction: ToolType := "function"

  type ToolChoice = string

  const ToolChoiceNone: ToolChoice := "none"
  const ToolChoiceAuto: ToolChoice := "auto"
  const ToolChoiceRequired: ToolChoice := "required"
  const ToolChoiceAny: ToolChoice := "any"

  /** ToolChoice.String: the underlying string. */
  function ToolChoiceString(t: ToolChoice): (s: string)
    ensures s == t
  {
    t
  }

  /** The enumerations' declared constants are pairwise distinct; the empty string is valid for none of them. */
  lemma DeclaredConstantsAreDistinct()
    ensures |ValidRoles| == 5
    ensures |ValidContentTypes| == 6
    ensures |ValidFinishReasons| == 7
    ensures |ValidProviders| == 8
    ensures !RoleIsValid("") && !ContentTypeIsValid("") && !FinishReasonIsValid("") && !ProviderIsValid("")
  {
  }
}
