/**
 * Static data: the burger catalogue of src/agent/constants.py and the default
 * prompt texts of src/agent/prompts.py.
 */
module Constants {

  datatype MenuEntry = MenuEntry(id: int, name: string, priceKrw: int)

  const BurgerMenus: seq<MenuEntry> := [
    MenuEntry(1, "더블 1955® 버거", 7900),
    MenuEntry(2, "더블 맥스파이시™ 상하이 버거", 8900),
    MenuEntry(3, "더블 쿼터파운더® 치즈", 8500),
    MenuEntry(4, "맥스파이시™ 상하이 버거", 6900),
    MenuEntry(5, "쿼터파운더® 치즈", 6900),
    MenuEntry(6, "토마토 치즈 비프 버거", 6900),
    MenuEntry(7, "빅맥®", 6900),
    MenuEntry(8, "맥크리스피™ 디럭스 버거", 7900),
    MenuEntry(9, "1955® 버거", 6900),
    MenuEntry(10, "맥치킨® 모짜렐라", 6900),
    MenuEntry(11, "맥치킨®", 5900),
    MenuEntry(12, "더블 불고기 버거", 7900),
    MenuEntry(13, "슈슈 버거", 6900),
    MenuEntry(14, "슈비 버거", 6900),
    MenuEntry(15, "베이컨 토마토 디럭스", 7900),
    MenuEntry(16, "더블 치즈버거", 6900),
    MenuEntry(17, "트리플 치즈버거", 7900),
    MenuEntry(18, "치즈버거", 5900)
  ]

  const BurgerOptions: seq<MenuEntry> := [MenuEntry(1, "피클", 200)]

  /** The catalogue lists ids 1 to 18 in order, each with a positive whole-won price. */
  lemma CatalogueWellFormed()
    ensures |BurgerMenus| == 18
    ensures forall i :: 0 <= i < |BurgerMenus| ==> BurgerMenus[i].id == i + 1 && BurgerMenus[i].priceKrw > 0
  {
  }

  const SystemPrompt: string :=
    "You are a helpful and friendly chatbot assistant to help ordering burgers using user's preference datas.\n"
    + "Whenever you answer to the user, you should also output the corresponding emotion of your response.\n"
    + "Get to know the user! Ask questions! Be spontaneous! \n"
    + "{user_info}\n"
    + "\n"
    + "System Time: {time}"

  const EmotionResponseSystemPrompt: string :=
    "You are a helpful assistant to analyze the user's emotion and respond accordingly."

  const EmotionResponseUserPrompt: string :=
    "You should analyze the user's message with an emotional response.\n"
    + "The emotions should be one of the following:\n"
    + "\n"
    + "{emotions}\n"
    + "\n"
    + "User message: {text}"
}
