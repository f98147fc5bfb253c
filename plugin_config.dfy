/** The plugin configuration types (the JSON document that accompanies a
    plugin's wasm bytes). Parsing is derived by serde and is not modelled;
    these are the values it produces. */
module PluginConfig {

  /** `PluginMetadata`: what is shown to the user; `name` is the registry key. */
  datatype PluginMetadata = PluginMetadata(name: string, version: string)

  /** `PluginAbiParamType`: `"string"` or `"number"` (the default). */
  datatype AbiParamType = Text | Number

  datatype AbiResult = AbiResult(ty: AbiParamType)

  datatype AbiFunction = AbiFunction(name: string, result: AbiResult)

  datatype PluginAbi = PluginAbi(functions: seq<AbiFunction>)

  /** `PluginConfig<PluginMetadata>`: the metadata fields flattened beside the ABI. */
  datatype Config = Config(metadata: PluginMetadata, abi: PluginAbi)
}
