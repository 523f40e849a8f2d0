/** The pack data shapes the core reads and writes (items, stacks, recipe
    types, recipes, manifests). Only the fields the modelled code touches
    are represented; `src/jei/types` itself is not part of this model. */
module PackTypes {
  import opened Wrappers

  /** `meta` is either a number or a string in pack data. */
  datatype Meta = MetaNumber(n: int) | MetaText(s: string)

  /** Structured item data (NBT). It is only ever compared through its JSON
      serialisation, which the planner receives as a collaborator. */
  datatype Nbt = Nbt(source: string)

  datatype ItemKey = ItemKey(id: string, meta: Option<Meta>, nbt: Option<Nbt>)

  /** A numeric field as found in pack data: a finite number, or anything
      the source's `Number(...)` coercion cannot turn into one (absent,
      NaN, infinite, unparsable text). */
  datatype RawNumber = Finite(value: real) | Unparsable

  /** `finiteNumberOr(v, fallback)`. */
  function FiniteOr(v: RawNumber, fallback: real): real {
    match v
    case Finite(x) => x
    case Unparsable => fallback
  }

  datatype StackItem = StackItem(id: string, meta: Option<Meta>, nbt: Option<Nbt>, amount: RawNumber)

  datatype Stack =
    | ItemStack(item: StackItem)
    | FluidStack(fluidId: string, fluidAmount: RawNumber, unit: Option<string>)
    | TagStack(tagId: string, tagAmount: RawNumber)

  /** The `amount` field every stack kind carries (optional on tags). */
  function StackAmount(s: Stack): RawNumber {
    match s
    case ItemStack(it) => it.amount
    case FluidStack(_, a, _) => a
    case TagStack(_, a) => a
  }

  datatype SlotIo = Input | Output | Catalyst

  datatype SlotDef = SlotDef(slotId: string, io: SlotIo)

  datatype Machine = Machine(id: Option<string>, name: Option<string>, icon: Option<string>)

  /** `RecipeTypeDef.machine`: absent, one machine, or an array of them. */
  datatype MachineField = NoMachine | OneMachine(machine: Machine) | MachineList(machines: seq<Machine>)

  datatype RecipeTypeDef = RecipeTypeDef(key: string, slots: seq<SlotDef>, machine: MachineField)

  /** A slot holds one stack or an array of stacks. */
  datatype SlotContent = OneStack(stack: Stack) | StackList(stacks: seq<Stack>)

  datatype IconSprite = IconSprite(url: Option<string>)

  datatype ItemDef = ItemDef(key: ItemKey, name: string, icon: Option<string>, iconSprite: Option<IconSprite>)

  /** `slotContents` is a JavaScript object: its entries in key order. */
  datatype Recipe = Recipe(
    id: string,
    recipeType: string,
    slotContents: seq<(string, SlotContent)>,
    inlineItems: Option<seq<ItemDef>>)

  datatype PackFiles = PackFiles(items: Option<string>, tags: Option<string>, recipeTypes: string, recipes: string)

  datatype PackManifest = PackManifest(packId: string, gameId: string, displayName: string, version: string, files: PackFiles)

  /** Tag id to the item ids it lists. */
  type PackTags = map<string, seq<string>>

  datatype PackData = PackData(
    manifest: PackManifest,
    items: seq<ItemDef>,
    recipeTypes: seq<RecipeTypeDef>,
    recipes: seq<Recipe>,
    tags: Option<PackTags>)

  /** JavaScript truthiness of an optional string: present and non-empty. */
  predicate Truthy(s: Option<string>) {
    s.Some? && s.value != ""
  }
}
