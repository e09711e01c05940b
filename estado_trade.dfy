/** The three-valued trade state every bot keeps (EstadoDeTrade). */
module EstadoTrade {
  datatype Estado = DeFora | Comprado | Vendido
}
